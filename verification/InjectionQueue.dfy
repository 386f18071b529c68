/** The steer and follow-up queues and their dispatch loop (internal/assistant/assistant.go, lines
    1288-1370; internal/assistant/queue.go), as a state machine: producers, cancellation and the loop
    interleave in every order, and a `select` with several ready cases may take any of them. */
module InjectionQueue {
  datatype Message = Message(chat: string, text: string)

  datatype Queue = Steer | FollowUp

  function Capacity(q: Queue): nat { if q == Steer then 16 else 64 }

  datatype Event =
    | Accepted(q: Queue, m: Message)
    | Dropped(q: Queue, m: Message)
    | Dispatched(q: Queue, m: Message)
    | SawSteerEmpty       // the first select fell through to its default
    | Cancelled
    | Stopped             // the loop returned

  type Log = seq<Event>

  /** Where the loop is: at the first select, at the combined one, handling a message (then going back to
      `polling` or to the drain), draining, or gone. */
  datatype Loop = Polling | Waiting | Handling(draining: bool) | Draining | Gone

  datatype State = State(steer: seq<Message>, followUp: seq<Message>, cancelled: bool, loop: Loop, log: Log)

  const START := State([], [], false, Polling, [])

  datatype Action =
    | Push(q: Queue, m: Message)
    | Cancel
    | TakeSteer           // from any of the three selects
    | FallThrough         // the default case of the first select
    | TakeFollowUp
    | Finish              // the handler returned
    | NoticeCancel        // from one of the first two selects
    | Stop                // the default case of the drain

  function Queued(s: State, q: Queue): seq<Message> {
    if q == Steer then s.steer else s.followUp
  }

  predicate Enabled(s: State, a: Action) {
    match a
    case Push(_, _) => true
    case Cancel => !s.cancelled
    case TakeSteer => (s.loop.Polling? || s.loop.Waiting? || s.loop.Draining?) && s.steer != []
    case FallThrough => s.loop.Polling? && !s.cancelled && s.steer == []
    case TakeFollowUp => s.loop.Waiting? && s.followUp != []
    case Finish => s.loop.Handling?
    case NoticeCancel => (s.loop.Polling? || s.loop.Waiting?) && s.cancelled
    case Stop => s.loop.Draining? && s.steer == []
  }

  /** What a step adds to the log. */
  function Emitted(s: State, a: Action): Log
    requires Enabled(s, a)
  {
    match a
    case Push(q, m) => [if |Queued(s, q)| == Capacity(q) then Dropped(q, m) else Accepted(q, m)]
    case Cancel => [Cancelled]
    case TakeSteer => [Dispatched(Steer, s.steer[0])]
    case FallThrough => [SawSteerEmpty]
    case TakeFollowUp => [Dispatched(FollowUp, s.followUp[0])]
    case Finish => []
    case NoticeCancel => []
    case Stop => [Stopped]
  }

  function Next(s: State, a: Action): State
    requires Enabled(s, a)
  {
    var n := s.(log := s.log + Emitted(s, a));
    match a
    case Push(q, m) =>
      if |Queued(s, q)| == Capacity(q) then n
      else if q == Steer then n.(steer := s.steer + [m])
      else n.(followUp := s.followUp + [m])
    case Cancel => n.(cancelled := true)
    case TakeSteer => n.(steer := s.steer[1..], loop := Handling(s.loop.Draining?))
    case FallThrough => n.(loop := Waiting)
    case TakeFollowUp => n.(followUp := s.followUp[1..], loop := Handling(false))
    case Finish => n.(loop := if s.loop.draining then Draining else Polling)
    case NoticeCancel => n.(loop := Draining)
    case Stop => n.(loop := Gone)
  }

  /** A run: the states from START on. */
  ghost predicate Run(states: seq<State>, actions: seq<Action>) {
    && |states| == |actions| + 1 && states[0] == START
    && forall i | 0 <= i < |actions| :: Enabled(states[i], actions[i]) && states[i + 1] == Next(states[i], actions[i])
  }

  // ---------- reading a log ----------

  function AcceptedOf(log: Log, q: Queue): seq<Message> {
    if log == [] then []
    else
      var before, e := AcceptedOf(log[..|log| - 1], q), log[|log| - 1];
      if e.Accepted? && e.q == q then before + [e.m] else before
  }

  function DispatchedOf(log: Log, q: Queue): seq<Message> {
    if log == [] then []
    else
      var before, e := DispatchedOf(log[..|log| - 1], q), log[|log| - 1];
      if e.Dispatched? && e.q == q then before + [e.m] else before
  }

  /** What a log leaves in a queue. */
  function Pending(log: Log, q: Queue): seq<Message> {
    var a, d := AcceptedOf(log, q), DispatchedOf(log, q);
    if |d| <= |a| then a[|d|..] else []
  }

  /** Whether the steer queue was seen empty since the last dispatch. */
  predicate SeenEmpty(log: Log) {
    log != [] &&
    var e := log[|log| - 1];
    if e.SawSteerEmpty? then true else if e.Dispatched? then false else SeenEmpty(log[..|log| - 1])
  }

  /** What must hold of the log before an event. */
  predicate Allowed(log: Log, e: Event) {
    match e
    case Accepted(q, _) => |Pending(log, q)| < Capacity(q)
    case Dropped(q, _) => |Pending(log, q)| == Capacity(q)
    case Dispatched(q, m) =>
      && Pending(log, q) != [] && m == Pending(log, q)[0] && Stopped !in log
      && (q == FollowUp ==> SeenEmpty(log))
    case SawSteerEmpty => Pending(log, Steer) == [] && Cancelled !in log && Stopped !in log
    case Cancelled => Cancelled !in log
    case Stopped => Pending(log, Steer) == [] && Cancelled in log && Stopped !in log
  }

  ghost predicate Lawful(log: Log) {
    forall k | 0 <= k < |log| :: Allowed(log[..k], log[k])
  }

  lemma Snoc(log: Log, e: Event)
    ensures forall q :: AcceptedOf(log + [e], q) ==
              if e.Accepted? && e.q == q then AcceptedOf(log, q) + [e.m] else AcceptedOf(log, q)
    ensures forall q :: DispatchedOf(log + [e], q) ==
              if e.Dispatched? && e.q == q then DispatchedOf(log, q) + [e.m] else DispatchedOf(log, q)
    ensures SeenEmpty(log + [e]) == (e.SawSteerEmpty? || (!e.Dispatched? && SeenEmpty(log)))
    ensures Lawful(log) && Allowed(log, e) ==> Lawful(log + [e])
  {
    hide Pending, Allowed;
    var all := log + [e];
    assert all[..|log|] == log;
    if Lawful(log) && Allowed(log, e) {
      forall k | 0 <= k < |all| ensures Allowed(all[..k], all[k]) {
        if k < |log| { assert all[..k] == log[..k]; }
      }
    }
  }

  // ---------- every run ----------

  /** The queues hold what was accepted and not yet dispatched. */
  ghost predicate Balanced(s: State) {
    forall q :: BalancedIn(s, q)
  }

  /** The loop stands where its log says. */
  ghost predicate Placed(s: State) {
    && s.cancelled == (Cancelled in s.log)
    && (s.loop.Waiting? ==> SeenEmpty(s.log))
    && (s.loop.Gone? <==> Stopped in s.log)
    && (s.loop.Draining? || s.loop.Gone? || (s.loop.Handling? && s.loop.draining) ==> s.cancelled)
  }

  ghost predicate Inv(s: State) { Lawful(s.log) && Balanced(s) && Placed(s) }

  lemma PendingIsQueued(s: State)
    requires Balanced(s)
    ensures forall q :: Pending(s.log, q) == Queued(s, q)
  {
    hide AcceptedOf, DispatchedOf;
    forall q ensures Pending(s.log, q) == Queued(s, q) {
      assert BalancedIn(s, q);
    }
  }

  predicate BalancedIn(s: State, q: Queue) {
    AcceptedOf(s.log, q) == DispatchedOf(s.log, q) + Queued(s, q) && |Queued(s, q)| <= Capacity(q)
  }

  lemma StaysBalanced(s: State, a: Action)
    requires Balanced(s) && Enabled(s, a)
    ensures Balanced(Next(s, a))
  {
    hide BalancedIn, Enabled, Next;
    forall q ensures BalancedIn(Next(s, a), q) {
      assert BalancedIn(s, q);
      StaysBalancedIn(s, a, q);
    }
  }

  lemma SnocIn(log: Log, e: Event, q: Queue)
    ensures AcceptedOf(log + [e], q) ==
              if e.Accepted? && e.q == q then AcceptedOf(log, q) + [e.m] else AcceptedOf(log, q)
    ensures DispatchedOf(log + [e], q) ==
              if e.Dispatched? && e.q == q then DispatchedOf(log, q) + [e.m] else DispatchedOf(log, q)
  {
    assert (log + [e])[..|log|] == log;
  }

  lemma StaysBalancedIn(s: State, a: Action, q: Queue)
    requires BalancedIn(s, q) && Enabled(s, a)
    ensures BalancedIn(Next(s, a), q)
  {
    hide AcceptedOf, DispatchedOf, Capacity;
    if Emitted(s, a) == [] {
      assert Next(s, a).log == s.log;
    } else {
      SnocIn(s.log, Emitted(s, a)[0], q);
    }
  }

  lemma StaysPlaced(s: State, a: Action)
    requires Placed(s) && Enabled(s, a)
    ensures Placed(Next(s, a))
  {
    hide AcceptedOf, DispatchedOf, Lawful, SeenEmpty;
    if Emitted(s, a) != [] { Snoc(s.log, Emitted(s, a)[0]); }
  }

  lemma EmitsAllowed(s: State, a: Action)
    requires Balanced(s) && Placed(s) && Enabled(s, a)
    ensures forall e | e in Emitted(s, a) :: Allowed(s.log, e)
  {
    hide AcceptedOf, DispatchedOf, SeenEmpty, Pending;
    PendingIsQueued(s);
    assert BalancedIn(s, Steer) && BalancedIn(s, FollowUp);
  }

  /** Every step keeps the invariant. */
  lemma StepKeepsInv(s: State, a: Action)
    requires Inv(s) && Enabled(s, a)
    ensures Inv(Next(s, a))
  {
    hide Allowed, Balanced, Placed, Lawful;
    StaysBalanced(s, a);
    StaysPlaced(s, a);
    EmitsAllowed(s, a);
    if Emitted(s, a) == [] {
      assert Next(s, a).log == s.log;
    } else {
      Snoc(s.log, Emitted(s, a)[0]);
    }
  }

  /** Whatever the schedule: every accepted message was dispatched once, in order, or is still queued. */
  lemma {:induction false} EveryRun(states: seq<State>, actions: seq<Action>, i: nat)
    requires Run(states, actions) && i < |states|
    ensures Inv(states[i])
  {
    if i == 0 {
      assert Lawful(START.log) && forall q :: AcceptedOf([], q) == [] && DispatchedOf([], q) == [];
    } else {
      EveryRun(states, actions, i - 1);
      assert Enabled(states[i - 1], actions[i - 1]) && states[i] == Next(states[i - 1], actions[i - 1]);
      StepKeepsInv(states[i - 1], actions[i - 1]);
    }
  }

  // ---------- what the rules mean ----------

  /** Whether the steer message accepted at position `a` is still queued at position `k`. */
  predicate StillQueued(log: Log, a: nat, k: nat)
    requires a < k <= |log| && log[a].Accepted?
  {
    |DispatchedOf(log[..k], log[a].q)| <= |AcceptedOf(log[..a], log[a].q)|
  }

  lemma {:induction false} Growing(log: Log, q: Queue, j: nat, k: nat)
    requires j <= k <= |log|
    ensures AcceptedOf(log[..j], q) <= AcceptedOf(log[..k], q)
    ensures DispatchedOf(log[..j], q) <= DispatchedOf(log[..k], q)
  {
    if j < k {
      Growing(log, q, j, k - 1);
      assert log[..k] == log[..k - 1] + [log[k - 1]];
      Snoc(log[..k - 1], log[k - 1]);
    }
  }

  /** The latest moment at which the steer queue was seen empty, with no dispatch since. */
  lemma {:induction false} WhenSeenEmpty(log: Log) returns (j: nat)
    requires SeenEmpty(log)
    ensures j < |log| && log[j] == SawSteerEmpty
    ensures forall i | j < i < |log| :: !log[i].Dispatched? && !log[i].SawSteerEmpty?
  {
    var n := |log| - 1;
    if log[n].SawSteerEmpty? {
      j := n;
    } else {
      j := WhenSeenEmpty(log[..n]);
      assert forall i | j < i < n :: log[..n][i] == log[i];
    }
  }

  /** A queue with nothing pending has dispatched all it had accepted. */
  lemma EmptyMeansDispatched(log: Log, a: nat, j: nat)
    requires a < j <= |log| && log[a].Accepted? && Pending(log[..j], log[a].q) == []
    ensures !StillQueued(log, a, j)
  {
    hide AcceptedOf, DispatchedOf;
    assert log[..a + 1] == log[..a] + [log[a]];
    Snoc(log[..a], log[a]);
    Growing(log, log[a].q, a + 1, j);
  }

  lemma NeverQueuedAgain(log: Log, a: nat, j: nat, k: nat)
    requires a < j <= k <= |log| && log[a].Accepted? && !StillQueued(log, a, j)
    ensures !StillQueued(log, a, k)
  {
    hide AcceptedOf, DispatchedOf;
    Growing(log, log[a].q, j, k);
  }

  /** No steer message is overtaken by two follow-ups: between its acceptance and its dispatch at most one
      follow-up is dispatched. */
  lemma OvertakenAtMostOnce(log: Log, a: nat, f: nat, g: nat)
    requires Lawful(log) && a < f < g < |log|
    requires log[a].Accepted? && log[a].q == Steer
    requires log[f].Dispatched? && log[f].q == FollowUp && log[g].Dispatched? && log[g].q == FollowUp
    ensures !StillQueued(log, a, g)
  {
    hide AcceptedOf, DispatchedOf, Pending, StillQueued;
    assert Allowed(log[..g], log[g]);
    var j := WhenSeenEmpty(log[..g]);
    assert log[..g][f] == log[f] && log[..g][j] == log[j];
    assert Allowed(log[..j], log[j]);
    EmptyMeansDispatched(log, a, j);
    NeverQueuedAgain(log, a, j, g);
  }

  lemma {:induction false} NoneDispatchedBetween(log: Log, q: Queue, j: nat, k: nat)
    requires j <= k <= |log| && forall i | j <= i < k :: !log[i].Dispatched?
    ensures DispatchedOf(log[..k], q) == DispatchedOf(log[..j], q)
  {
    if j < k {
      NoneDispatchedBetween(log, q, j, k - 1);
      assert log[..k] == log[..k - 1] + [log[k - 1]];
      Snoc(log[..k - 1], log[k - 1]);
    }
  }

  lemma LawfulPrefix(log: Log, k: nat)
    requires Lawful(log) && k <= |log|
    ensures Lawful(log[..k])
  {
    hide Allowed;
    forall i | 0 <= i < k ensures Allowed(log[..k][..i], log[..k][i]) {
      assert log[..k][..i] == log[..i] && Allowed(log[..i], log[i]);
    }
  }

  /** A message accepted after the queue was seen empty waits until the next dispatch. */
  lemma StillWaiting(log: Log, j: nat, a: nat, f: nat)
    requires Lawful(log) && j < a < f <= |log| && log[a].Accepted?
    requires Pending(log[..j], log[a].q) == [] && forall i | j <= i < f :: !log[i].Dispatched?
    ensures StillQueued(log, a, f)
  {
    hide AcceptedOf, DispatchedOf, Lawful;
    LawfulPrefix(log, j);
    LawfulConserves(log[..j], log[a].q);
    NoneDispatchedBetween(log, log[a].q, j, f);
    Growing(log, log[a].q, j, a);
  }

  /** Exactly which steer messages a follow-up overtakes: those accepted since the first select last saw
      the steer queue empty, for the combined select does not prefer it.  Steer keeps its priority for a
      dispatch if and only if there are none. */
  lemma FollowUpOvertakes(log: Log, f: nat) returns (j: nat)
    requires Lawful(log) && f < |log| && log[f].Dispatched? && log[f].q == FollowUp
    ensures j < f && log[j] == SawSteerEmpty && forall i | j < i < f :: log[i] != SawSteerEmpty
    ensures forall a | 0 <= a < f && log[a].Accepted? && log[a].q == Steer :: StillQueued(log, a, f) <==> j < a
  {
    hide AcceptedOf, DispatchedOf, Pending, StillQueued;
    assert Allowed(log[..f], log[f]);
    j := WhenSeenEmpty(log[..f]);
    assert forall i | j <= i < f :: log[i] == log[..f][i];
    assert Allowed(log[..j], log[j]);
    forall a | 0 <= a < f && log[a].Accepted? && log[a].q == Steer ensures StillQueued(log, a, f) <==> j < a {
      if j < a {
        StillWaiting(log, j, a, f);
      } else {
        EmptyMeansDispatched(log, a, j);
        NeverQueuedAgain(log, a, j, f);
      }
    }
  }

  /** It happens: a run in which a follow-up overtakes a queued steer message. */
  lemma OneFollowUpCanOvertake(m: Message, n: Message)
    ensures exists states: seq<State>, actions: seq<Action> :: Run(states, actions) && |actions| == 4
              && states[4].steer == [m]
              && states[4].log == [SawSteerEmpty, Accepted(FollowUp, n), Accepted(Steer, m), Dispatched(FollowUp, n)]
  {
    var actions := [FallThrough, Push(FollowUp, n), Push(Steer, m), TakeFollowUp];
    var s1 := Next(START, actions[0]);
    var s2 := Next(s1, actions[1]);
    var s3 := Next(s2, actions[2]);
    var s4 := Next(s3, actions[3]);
    assert Run([START, s1, s2, s3, s4], actions);
  }

  /** After cancellation at most one more follow-up is dispatched: of any two, the first came before. */
  lemma OneFollowUpAfterCancel(log: Log, c: nat, f: nat, g: nat)
    requires Lawful(log) && c < |log| && f < g < |log| && log[c] == Cancelled
    requires log[f].Dispatched? && log[f].q == FollowUp && log[g].Dispatched? && log[g].q == FollowUp
    ensures f < c
  {
    hide AcceptedOf, DispatchedOf, Pending;
    assert Allowed(log[..g], log[g]);
    var j := WhenSeenEmpty(log[..g]);
    assert log[..g][f] == log[f] && log[..g][j] == log[j];
    assert Allowed(log[..j], log[j]);
    assert forall i | 0 <= i < j :: log[i] == log[..j][i];
  }

  /** A dispatch takes only what is pending. */
  lemma ConservesSnoc(log: Log, e: Event, q: Queue)
    requires AcceptedOf(log, q) == DispatchedOf(log, q) + Pending(log, q) && Allowed(log, e)
    ensures AcceptedOf(log + [e], q) == DispatchedOf(log + [e], q) + Pending(log + [e], q)
  {
    hide AcceptedOf, DispatchedOf, SeenEmpty, Capacity, Lawful;
    Snoc(log, e);
  }

  lemma LawfulFront(log: Log)
    requires Lawful(log) && log != []
    ensures Lawful(log[..|log| - 1]) && Allowed(log[..|log| - 1], log[|log| - 1])
  {
    hide Allowed;
    var front := log[..|log| - 1];
    forall k | 0 <= k < |front| ensures Allowed(front[..k], front[k]) {
      assert front[..k] == log[..k] && Allowed(log[..k], log[k]);
    }
  }

  lemma {:induction false} LawfulConserves(log: Log, q: Queue)
    requires Lawful(log)
    ensures AcceptedOf(log, q) == DispatchedOf(log, q) + Pending(log, q)
  {
    hide AcceptedOf, DispatchedOf, Pending, Allowed, Lawful;
    if log == [] {
      NothingPending(q);
    } else {
      var front, e := log[..|log| - 1], log[|log| - 1];
      LawfulFront(log);
      LawfulConserves(front, q);
      ConservesSnoc(front, e, q);
      assert log == front + [e];
    }
  }

  lemma NothingPending(q: Queue)
    ensures AcceptedOf([], q) == DispatchedOf([], q) == Pending([], q) == []
  {
  }

  /** When the loop returns, every steer message accepted so far has been dispatched, and nothing is
      dispatched afterwards. */
  lemma StopLeavesNoSteer(log: Log, k: nat)
    requires Lawful(log) && k < |log| && log[k] == Stopped
    ensures DispatchedOf(log[..k], Steer) == AcceptedOf(log[..k], Steer)
    ensures forall i | k < i < |log| :: !log[i].Dispatched? && !log[i].SawSteerEmpty? && !log[i].Stopped?
  {
    hide AcceptedOf, DispatchedOf, Pending, SeenEmpty;
    LawfulPrefix(log, k);
    LawfulConserves(log[..k], Steer);
    assert Allowed(log[..k], log[k]);
    forall i | k < i < |log| ensures !log[i].Dispatched? && !log[i].SawSteerEmpty? && !log[i].Stopped? {
      assert log[..i][k] == Stopped && Allowed(log[..i], log[i]);
    }
  }

  // ---------- the loop serves ----------

  predicate OfLoop(a: Action) { !a.Push? && !a.Cancel? }

  /** The loop can take a step unless it has returned, or waits with nothing to do. */
  lemma LoopIsNeverStuck(s: State)
    ensures (exists a :: OfLoop(a) && Enabled(s, a)) <==>
              !s.loop.Gone? && !(s.loop.Waiting? && s.steer == [] && s.followUp == [] && !s.cancelled)
  {
    match s.loop
    case Polling =>
      assert if s.steer != [] then Enabled(s, TakeSteer)
             else if s.cancelled then Enabled(s, NoticeCancel) else Enabled(s, FallThrough);
    case Waiting =>
      assert s.steer != [] ==> Enabled(s, TakeSteer);
      assert s.followUp != [] ==> Enabled(s, TakeFollowUp);
      assert s.cancelled ==> Enabled(s, NoticeCancel);
    case Handling(_) => assert Enabled(s, Finish);
    case Draining => assert Enabled(s, if s.steer != [] then TakeSteer else Stop);
    case Gone =>
  }

  /** How much the loop still has to do. */
  function Work(s: State): nat {
    3 * (|s.steer| + |s.followUp|) +
    match s.loop
    case Gone => 0
    case Draining => 1
    case Waiting => 2
    case Polling => 3
    case Handling(draining) => if draining then 2 else 4
  }

  /** Each of its steps brings it closer to the end of its work: left alone it serves all that is queued, save
      that a cancelled one may return with follow-ups unserved. */
  lemma LoopWorks(s: State, a: Action)
    requires OfLoop(a) && Enabled(s, a)
    ensures Work(Next(s, a)) < Work(s)
  {
  }

  /** The loop on its own, until it has no step left. */
  ghost predicate Served(s: State, actions: seq<Action>, t: State)
    decreases |actions|
  {
    if actions == [] then s == t && forall a :: OfLoop(a) ==> !Enabled(s, a)
    else OfLoop(actions[0]) && Enabled(s, actions[0]) && Served(Next(s, actions[0]), actions[1..], t)
  }

  /** Whatever choices it makes, that comes after at most `Work` steps, and then nothing is left to serve. */
  lemma {:induction false} LoopServes(s: State, actions: seq<Action>, t: State)
    requires Served(s, actions, t)
    ensures |actions| <= Work(s)
    ensures t.loop.Gone? || (t.loop.Waiting? && t.steer == [] && t.followUp == [] && !t.cancelled)
    ensures !s.loop.Gone? ==> t.steer == []
    decreases |actions|
  {
    if actions == [] {
      LoopIsNeverStuck(s);
    } else {
      LoopWorks(s, actions[0]);
      LoopServes(Next(s, actions[0]), actions[1..], t);
    }
  }
}
