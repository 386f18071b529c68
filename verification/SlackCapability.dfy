/** The slack_write capability follows the running Slack instances (internal/channelmgr/slack_poster.go,
    lines 58-88; internal/channelmgr/manager.go, lines 444-458 and 816-836). */
module SlackCapability {
  import opened Options

  datatype Instance = Slack(mode: string, channels: set<string>) | Other

  predicate WriteEnabled(i: Instance) {
    i.Slack? && (i.mode == "draft" || i.mode == "auto") && i.channels != {}
  }

  type Running = map<string, Instance>

  /** Some running Slack instance can post. */
  predicate AnyEnabled(running: Running) { exists id | id in running :: WriteEnabled(running[id]) }

  /** What each callback was told last; callbacks are numbered. */
  type Delivered = map<nat, bool>

  function Deliver(delivered: Delivered, fn: Option<nat>, enabled: bool): Delivered {
    if fn.Some? then delivered[fn.value := enabled] else delivered
  }

  /** The callback, if any, was last told what is the case. */
  predicate UpToDate(running: Running, fn: Option<nat>, delivered: Delivered) {
    fn.Some? ==> fn.value in delivered && delivered[fn.value] == AnyEnabled(running)
  }

  // ---------- all goroutines at once ----------

  /** A recompute under way: it holds the notification lock, has taken its snapshot, or has notified. */
  datatype Recompute = Entered | Snapped(fn: Option<nat>, enabled: bool) | Notified

  /** `owed` counts the changes of goroutines that have not yet begun their recompute. */
  datatype State = State(running: Running, fn: Option<nat>, delivered: Delivered, owed: nat, busy: seq<Recompute>)

  const START := State(map[], None, map[], 0, [])

  datatype Action =
    | Insert(id: string, i: Instance)
    | Remove(id: string)
    | Register(fn: nat)
    | Enter              // take the notification lock
    | Snap(k: nat)       // read the callback and the running instances
    | Notify(k: nat)
    | Leave(k: nat)

  predicate Changes(a: Action) { a.Insert? || a.Remove? || a.Register? }

  /** `serial` says whether recomputes take the lock; the code always does. */
  predicate Enabled(serial: bool, s: State, a: Action) {
    match a
    case Insert(_, _) => true
    case Remove(_) => true
    case Register(_) => true
    case Enter => s.owed > 0 && (serial ==> s.busy == [])
    case Snap(k) => k < |s.busy| && s.busy[k].Entered?
    case Notify(k) => k < |s.busy| && s.busy[k].Snapped?
    case Leave(k) => k < |s.busy| && s.busy[k].Notified?
  }

  function Next(s: State, a: Action): State
    requires Enabled(false, s, a)
  {
    match a
    case Insert(id, i) => s.(running := s.running[id := i], owed := s.owed + 1)
    case Remove(id) => s.(running := s.running - {id}, owed := s.owed + 1)
    case Register(fn) => s.(fn := Some(fn), owed := s.owed + 1)
    case Enter => s.(owed := s.owed - 1, busy := s.busy + [Entered])
    case Snap(k) => s.(busy := s.busy[k := Snapped(s.fn, AnyEnabled(s.running))])
    case Notify(k) =>
      s.(delivered := Deliver(s.delivered, s.busy[k].fn, s.busy[k].enabled), busy := s.busy[k := Notified])
    case Leave(k) => s.(busy := s.busy[..k] + s.busy[k + 1..])
  }

  /** The actions lead from one state to another. */
  ghost predicate Path(serial: bool, s: State, actions: seq<Action>, t: State)
    decreases |actions|
  {
    if actions == [] then s == t
    else Enabled(serial, s, actions[0]) && Path(serial, Next(s, actions[0]), actions[1..], t)
  }

  predicate Quiet(s: State) { s.owed == 0 && s.busy == [] }

  /** With the lock, either a recompute is still to read the state, or the one under way carries the
      state, or the callback knows it. */
  predicate Inv(s: State) {
    && |s.busy| <= 1
    && (s.owed == 0 && (s.busy == [] || s.busy[0].Notified?) ==> UpToDate(s.running, s.fn, s.delivered))
    && (s.owed == 0 && s.busy != [] && s.busy[0].Snapped? ==> s.busy[0] == Snapped(s.fn, AnyEnabled(s.running)))
  }

  lemma StepKeepsInv(s: State, a: Action)
    requires Inv(s) && Enabled(true, s, a)
    ensures Inv(Next(s, a))
  {
    hide AnyEnabled;
  }

  lemma {:induction false} PathKeepsInv(s: State, actions: seq<Action>, t: State)
    requires Inv(s) && Path(true, s, actions, t)
    ensures Inv(t)
    decreases |actions|
  {
    if actions != [] {
      StepKeepsInv(s, actions[0]);
      PathKeepsInv(Next(s, actions[0]), actions[1..], t);
    }
  }

  /** Convergence: over every interleaving of starts, stops, exits and registrations, whenever no recompute
      is owed or under way, the callback was last told exactly whether some running instance can post. */
  lemma Converges(actions: seq<Action>, s: State)
    requires Path(true, START, actions, s) && Quiet(s)
    ensures UpToDate(s.running, s.fn, s.delivered)
  {
    PathKeepsInv(START, actions, s);
  }

  lemma FirstStep(serial: bool, s: State, a: Action, rest: seq<Action>, t: State) returns (actions: seq<Action>)
    requires Enabled(serial, s, a) && Path(serial, Next(s, a), rest, t)
    ensures Path(serial, s, actions, t)
  {
    actions := [a] + rest;
    assert actions[1..] == rest;
  }

  lemma NoStep(serial: bool, s: State)
    ensures Path(serial, s, [], s)
  {
  }

  ghost predicate Reaches(s: State, t: State) { exists actions :: Path(true, s, actions, t) }

  /** A recompute that nothing interrupts. */
  lemma RecomputeAlone(s: State)
    requires s.busy == [] && s.owed > 0
    ensures Reaches(s, s.(owed := s.owed - 1, delivered := Deliver(s.delivered, s.fn, AnyEnabled(s.running))))
  {
    hide AnyEnabled, Path, Deliver;
    var s1 := Next(s, Enter);
    var s2 := Next(s1, Snap(0));
    var s3 := Next(s2, Notify(0));
    var t := Next(s3, Leave(0));
    assert t.busy == s.busy;
    NoStep(true, t);
    var actions := FirstStep(true, s3, Leave(0), [], t);
    actions := FirstStep(true, s2, Notify(0), actions, t);
    actions := FirstStep(true, s1, Snap(0), actions, t);
    actions := FirstStep(true, s, Enter, actions, t);
  }

  /** A change followed by its recompute. */
  lemma ChangeAlone(s: State, a: Action)
    requires s.busy == [] && Changes(a)
    ensures var n := Next(s, a);
            Reaches(s, n.(owed := s.owed, delivered := Deliver(n.delivered, n.fn, AnyEnabled(n.running))))
  {
    hide AnyEnabled, Path, Deliver;
    var n := Next(s, a);
    RecomputeAlone(n);
    var t := n.(owed := s.owed, delivered := Deliver(n.delivered, n.fn, AnyEnabled(n.running)));
    var rest :| Path(true, n, rest, t);
    var actions := FirstStep(true, s, a, rest, t);
  }

  lemma NoChange(s: State)
    ensures Reaches(s, s)
  {
    NoStep(true, s);
  }

  lemma OneWriter(i: Instance)
    requires WriteEnabled(i)
    ensures !AnyEnabled(map[]) && AnyEnabled(map["a" := i]) && map["a" := i] - {"a"} == map[]
  {
    var one: Running := map["a" := i];
    assert WriteEnabled(one["a"]);
  }

  /** Without the lock it does not: an older snapshot can be delivered last. */
  lemma TheLockIsNeeded() returns (actions: seq<Action>, t: State)
    ensures Path(false, START, actions, t) && Quiet(t) && !UpToDate(t.running, t.fn, t.delivered)
  {
    hide AnyEnabled, Path;
    var i := Slack("auto", {"c"});
    OneWriter(i);
    var s1 := Next(START, Register(0));
    var s2 := Next(s1, Insert("a", i));
    var s3 := Next(s2, Enter);
    var s4 := Next(s3, Snap(0));
    var s5 := Next(s4, Remove("a"));
    var s6 := Next(s5, Enter);
    var s7 := Next(s6, Snap(1));
    var s8 := Next(s7, Notify(1));
    var s9 := Next(s8, Leave(1));
    var s10 := Next(s9, Enter);
    var s11 := Next(s10, Snap(1));
    var s12 := Next(s11, Notify(1));
    var s13 := Next(s12, Leave(1));
    var s14 := Next(s13, Notify(0));
    var s15 := Next(s14, Leave(0));
    t := s15;
    actions := [];
    NoStep(false, t);
    actions := FirstStep(false, s14, Leave(0), actions, t);
    actions := FirstStep(false, s13, Notify(0), actions, t);
    actions := FirstStep(false, s12, Leave(1), actions, t);
    actions := FirstStep(false, s11, Notify(1), actions, t);
    actions := FirstStep(false, s10, Snap(1), actions, t);
    actions := FirstStep(false, s9, Enter, actions, t);
    actions := FirstStep(false, s8, Leave(1), actions, t);
    actions := FirstStep(false, s7, Notify(1), actions, t);
    actions := FirstStep(false, s6, Snap(1), actions, t);
    actions := FirstStep(false, s5, Enter, actions, t);
    actions := FirstStep(false, s4, Remove("a"), actions, t);
    actions := FirstStep(false, s3, Snap(0), actions, t);
    actions := FirstStep(false, s2, Enter, actions, t);
    actions := FirstStep(false, s1, Insert("a", i), actions, t);
    actions := FirstStep(false, START, Register(0), actions, t);
  }

  // ---------- recomputes come to an end ----------

  function Weight(r: Recompute): nat {
    match r
    case Entered => 3
    case Snapped(_, _) => 2
    case Notified => 1
  }

  function Work(s: State): nat
    requires |s.busy| <= 1
  {
    4 * s.owed + if s.busy == [] then 0 else Weight(s.busy[0])
  }

  /** Every step that is not a change does some of the work owed, and until none is left one is possible:
      once the changes stop, any schedule reaches a quiet state after exactly Work(s) steps. */
  lemma RecomputesDrain(s: State, a: Action)
    requires Inv(s) && Enabled(true, s, a) && !Changes(a)
    ensures |Next(s, a).busy| <= 1 && Work(Next(s, a)) == Work(s) - 1
  {
    hide AnyEnabled, Deliver;
  }

  lemma NeverStuck(s: State)
    requires Inv(s)
    ensures Quiet(s) <==> Work(s) == 0
    ensures !Quiet(s) ==> exists a :: Enabled(true, s, a) && !Changes(a)
  {
    hide AnyEnabled, Deliver;
    if !Quiet(s) {
      var a := if s.busy == [] then Enter
               else if s.busy[0].Entered? then Snap(0)
               else if s.busy[0].Snapped? then Notify(0)
               else Leave(0);
      assert Enabled(true, s, a) && !Changes(a);
    }
  }

  // ---------- one goroutine on its own ----------

  class Manager {
    var running: Running
    var callback: Option<nat>
    var delivered: Delivered

    /** The manager between two calls, as a state of the machine. */
    ghost function View(): State
      reads this
    {
      State(running, callback, delivered, 0, [])
    }

    constructor ()
      ensures UpToDate(running, callback, delivered) && running == map[] && callback == None
    {
      running, callback, delivered := map[], None, map[];
    }

    method RecomputeSlackWrite()
      modifies `delivered
      ensures delivered == Deliver(old(delivered), callback, AnyEnabled(running))
      ensures Reaches(old(View()).(owed := 1), View())
    {
      RecomputeAlone(View().(owed := 1));
      var fn := callback;
      var enabled := false;
      var left := running.Keys;
      while left != {}
        invariant left <= running.Keys
        invariant !enabled && forall id | id in running && id !in left :: !WriteEnabled(running[id])
      {
        var id :| id in left;
        left := left - {id};
        if WriteEnabled(running[id]) {
          enabled := true;
          break;
        }
      }
      if fn.Some? { delivered := delivered[fn.value := enabled]; }
    }

    method SetSlackWriteCapability(fn: nat)
      modifies this
      ensures running == old(running) && callback == Some(fn)
      ensures delivered == old(delivered)[fn := AnyEnabled(running)]
      ensures Reaches(old(View()), View())
    {
      hide Reaches;
      ChangeAlone(View(), Register(fn));
      callback := Some(fn);
      RecomputeSlackWrite();
    }

    method StartInstance(id: string, i: Instance) returns (started: bool)
      modifies this
      ensures started == (id !in old(running)) && callback == old(callback)
      ensures running == if started then old(running)[id := i] else old(running)
      ensures delivered == if started then Deliver(old(delivered), callback, AnyEnabled(running)) else old(delivered)
      ensures Reaches(old(View()), View())
    {
      hide Reaches;
      NoChange(View());
      if id in running { return false; }
      ChangeAlone(View(), Insert(id, i));
      running := running[id := i];
      RecomputeSlackWrite();
      return true;
    }

    /** Nothing is owed, and nobody is told, when nothing was removed. */
    method StopInstance(id: string)
      modifies this
      ensures running == old(running) - {id} && callback == old(callback)
      ensures delivered == if id in old(running) then Deliver(old(delivered), callback, AnyEnabled(running))
                           else old(delivered)
      ensures Reaches(old(View()), View())
    {
      hide Reaches;
      NoChange(View());
      if id !in running {
        assert running - {id} == running;
        return;
      }
      ChangeAlone(View(), Remove(id));
      running := running - {id};
      RecomputeSlackWrite();
    }

    /** The goroutine of an instance ends: it removes its entry whether or not it still is there. */
    method Exited(id: string)
      modifies this
      ensures running == old(running) - {id} && callback == old(callback)
      ensures delivered == Deliver(old(delivered), callback, AnyEnabled(running))
      ensures Reaches(old(View()), View())
    {
      hide Reaches;
      ChangeAlone(View(), Remove(id));
      running := running - {id};
      RecomputeSlackWrite();
    }
  }
}
