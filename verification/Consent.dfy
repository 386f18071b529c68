/** Consent across messages: a tool that needs approval runs after an affirmative reply to a stored request, and
    only then (internal/assistant/assistant.go, lines 229-247 and 892-911; internal/assistant/approvals.go).

    Messages of all chats may overlap.  What they share is the approval store, and they touch it in two atomic
    steps: each message first takes its chat's request, and a turn that ends waiting for consent stores one. */
module Consent {
  import opened Options
  import opened Tools
  import opened Approvals
  import opened TurnLog
  import opened TurnSpec
  import opened TurnRules
  import opened TurnProofs
  import opened TurnFollows
  import opened Turn

  /** How the text reads as an answer to a request. */
  datatype Kind = Affirmative | Negative | Other

  /** A message with everything its handling depends on; `outcome` is what an approved body would do. */
  datatype Message = Message(chat: string, kind: Kind, env: Env, world: World, want: Want, outcome: SkillOutcome)

  /** `at` is the position at which the message `m` that did it had arrived. */
  datatype Happening =
    | Arrived(m: Message)                                         // and took what the chat had open
    | Consented(at: nat, m: Message, request: Request, e: Event)  // the stored call was tried
    | Declined(at: nat, m: Message)                               // the stored call was dropped
    | Ran(at: nat, m: Message, log: Log, out: Outcome)            // a whole turn, which may ask for consent

  type History = seq<Happening>

  function Lookup(pending: Store, chat: string): Option<Request> {
    if chat in pending then Some(pending[chat]) else None
  }

  predicate EndsPending(log: Log) {
    log != [] && log[|log| - 1].Attempted? && log[|log| - 1].result.pending
  }

  /** What a turn that ends pending asks for. */
  function RequestOf(env: Env, log: Log): Request
    requires EndsPending(log)
  {
    var call := log[|log| - 1].call;
    Request(call, env.LevelOf(call.name))
  }

  /** A message under way: when it arrived and what it took out of the store. */
  datatype Handler = Handler(at: nat, m: Message, taken: Option<Request>)

  predicate Approves(hd: Handler) {
    hd.taken.Some? && hd.m.kind == Affirmative && hd.m.env.CanApprove(hd.taken.value.level)
  }

  /** What a message comes to: the stored call is tried, or dropped, or a turn of its own is run. */
  ghost function Concluding(hd: Handler): Happening {
    var m := hd.m;
    if Approves(hd) then
      Consented(hd.at, m, hd.taken.value, AttemptOf(m.env, false, true, hd.taken.value.call, m.outcome))
    else if hd.taken.Some? && m.kind != Other then Declined(hd.at, m)
    else
      var r := Play(m.env, m.world, m.want);
      Ran(hd.at, m, r.t.log, r.out)
  }

  /** What the store holds after an event. */
  function Storing(pending: Store, x: Happening): Store {
    match x
    case Arrived(m) => pending - {m.chat}
    case Ran(_, m, log, _) => if EndsPending(log) then pending[m.chat := RequestOf(m.env, log)] else pending
    case _ => pending
  }

  // ---------- the machine ----------

  datatype State = State(pending: Store, flight: seq<Handler>, h: History)

  datatype Action = Arrive(m: Message) | Conclude(k: nat)

  predicate Enabled(s: State, a: Action) { a.Conclude? ==> a.k < |s.flight| }

  function Without(flight: seq<Handler>, k: nat): seq<Handler>
    requires k < |flight|
  {
    flight[..k] + flight[k + 1..]
  }

  ghost function Next(s: State, a: Action): State
    requires Enabled(s, a)
  {
    match a
    case Arrive(m) =>
      State(Storing(s.pending, Arrived(m)), s.flight + [Handler(|s.h|, m, Lookup(s.pending, m.chat))],
            s.h + [Arrived(m)])
    case Conclude(k) =>
      var x := Concluding(s.flight[k]);
      State(Storing(s.pending, x), Without(s.flight, k), s.h + [x])
  }

  const EMPTY := State(map[], [], [])

  ghost predicate Path(s: State, actions: seq<Action>, t: State)
    decreases |actions|
  {
    if actions == [] then s == t
    else Enabled(s, actions[0]) && Path(Next(s, actions[0]), actions[1..], t)
  }

  ghost predicate Reaches(s: State, t: State) { exists actions :: Path(s, actions, t) }

  // ---------- the rules ----------

  /** The request a chat has open after a history: that of its latest turn that ended waiting for consent, if
      no message has followed. */
  function OpenRequest(h: History, chat: string): Option<Request> {
    if h == [] then None
    else
      match h[|h| - 1]
      case Arrived(m) => if m.chat == chat then None else OpenRequest(h[..|h| - 1], chat)
      case Ran(_, m, log, _) =>
        if m.chat == chat && EndsPending(log) then Some(RequestOf(m.env, log)) else OpenRequest(h[..|h| - 1], chat)
      case _ => OpenRequest(h[..|h| - 1], chat)
  }

  predicate Concludes(x: Happening, at: nat) {
    !x.Arrived? && x.at == at
  }

  /** The message has not come to anything yet. */
  ghost predicate Pending(h: History, at: nat) {
    forall i | 0 <= i < |h| :: !Concludes(h[i], at)
  }

  /** An event is allowed after a history: a message comes to one thing, which the request its chat had open
      when it arrived, the reply and the caller's role decide. */
  ghost predicate Allowed(h: History, x: Happening) {
    x.Arrived? ||
    (x.at < |h| && h[x.at] == Arrived(x.m) && Pending(h, x.at) &&
     var open := OpenRequest(h[..x.at], x.m.chat);
     match x
     case Consented(_, m, r, e) =>
       && open == Some(r) && m.kind == Affirmative && m.env.CanApprove(r.level)
       && e.Attempted? && e.call == r.call && Legit(m.env, false, true, e) && Reported(m.env, false, e, m.outcome)
     case Declined(_, m) =>
       open.Some? && (m.kind == Negative || (m.kind == Affirmative && !m.env.CanApprove(open.value.level)))
     case Ran(_, m, log, out) =>
       && (open.None? || m.kind == Other)
       && LogOk(m.env, log) && IsTurn(m.env, m.world, m.want, log, out))
  }

  ghost predicate Lawful(h: History) {
    forall k | 0 <= k < |h| :: Allowed(h[..k], h[k])
  }

  /** The store holds exactly the open requests. */
  ghost predicate InStep(pending: Store, h: History) {
    forall chat: string :: Lookup(pending, chat) == OpenRequest(h, chat)
  }

  /** A message under way arrived where it says, took what was open then, and has not come to anything yet. */
  ghost predicate UnderWay(h: History, hd: Handler) {
    && hd.at < |h| && h[hd.at] == Arrived(hd.m)
    && hd.taken == OpenRequest(h[..hd.at], hd.m.chat)
    && Pending(h, hd.at)
  }

  predicate InFlight(flight: seq<Handler>, at: nat) { exists k | 0 <= k < |flight| :: flight[k].at == at }

  /** Every message that has arrived is under way or has come to something. */
  ghost predicate Complete(s: State) {
    forall at | 0 <= at < |s.h| && s.h[at].Arrived? :: InFlight(s.flight, at) || !Pending(s.h, at)
  }

  ghost predicate Inv(s: State) {
    && Lawful(s.h) && InStep(s.pending, s.h)
    && (forall k | 0 <= k < |s.flight| :: UnderWay(s.h, s.flight[k]))
    && (forall i, j | 0 <= i < j < |s.flight| :: s.flight[i].at != s.flight[j].at)
    && Complete(s)
  }

  // ---------- every run keeps them ----------

  lemma LawfulSnoc(h: History, x: Happening)
    requires Lawful(h) && Allowed(h, x)
    ensures Lawful(h + [x])
  {
    hide Allowed;
    var all := h + [x];
    forall k | 0 <= k < |all| ensures Allowed(all[..k], all[k]) {
      if k < |h| {
        assert all[..k] == h[..k] && all[k] == h[k];
      } else {
        assert all[..k] == h && all[k] == x;
      }
    }
  }

  lemma InStepSnoc(pending: Store, h: History, x: Happening)
    requires InStep(pending, h)
    ensures InStep(Storing(pending, x), h + [x])
  {
    assert (h + [x])[..|h|] == h;
    forall chat: string ensures Lookup(Storing(pending, x), chat) == OpenRequest(h + [x], chat) {
      assert Lookup(pending, chat) == OpenRequest(h, chat);
    }
  }

  lemma PendingSnoc(h: History, x: Happening, at: nat)
    ensures Pending(h + [x], at) <==> Pending(h, at) && !Concludes(x, at)
  {
    var all := h + [x];
    assert forall i | 0 <= i < |h| :: all[i] == h[i];
    if Pending(all, at) { assert !Concludes(all[|h|], at); }
  }

  lemma UnderWaySnoc(h: History, x: Happening, hd: Handler)
    requires UnderWay(h, hd) && !Concludes(x, hd.at)
    ensures UnderWay(h + [x], hd)
  {
    hide OpenRequest, Pending, Concludes;
    PendingSnoc(h, x, hd.at);
    assert (h + [x])[..hd.at] == h[..hd.at];
  }

  lemma NotArrivedYet(h: History)
    requires Lawful(h)
    ensures Pending(h, |h|)
  {
    hide OpenRequest;
    forall i | 0 <= i < |h| ensures !Concludes(h[i], |h|) {
      assert Allowed(h[..i], h[i]);
    }
  }

  lemma NewIsUnderWay(s: State, hd: Handler)
    requires Lawful(s.h) && InStep(s.pending, s.h)
    requires hd.at == |s.h| && hd.taken == Lookup(s.pending, hd.m.chat)
    ensures UnderWay(s.h + [Arrived(hd.m)], hd)
  {
    hide OpenRequest, Pending, Lawful;
    NotArrivedYet(s.h);
    PendingSnoc(s.h, Arrived(hd.m), |s.h|);
    assert (s.h + [Arrived(hd.m)])[..|s.h|] == s.h;
  }

  lemma EarlierArrivals(s: State)
    requires Inv(s)
    ensures forall k | 0 <= k < |s.flight| :: s.flight[k].at < |s.h|
  {
    forall k | 0 <= k < |s.flight| ensures s.flight[k].at < |s.h| {
      assert UnderWay(s.h, s.flight[k]);
    }
  }

  lemma ArriveKeepsInv(s: State, m: Message)
    requires Inv(s)
    ensures Inv(Next(s, Arrive(m)))
  {
    hide Lawful, InStep, OpenRequest, Pending, Allowed, UnderWay, Lookup, Storing, InFlight;
    var x, hd := Arrived(m), Handler(|s.h|, m, Lookup(s.pending, m.chat));
    var h, flight := s.h + [x], s.flight + [hd];
    assert Allowed(s.h, x) by { ArrivalIsAllowed(s.h, m); }
    LawfulSnoc(s.h, x);
    InStepSnoc(s.pending, s.h, x);
    NewIsUnderWay(s, hd);
    EarlierArrivals(s);
    forall k | 0 <= k < |flight| ensures UnderWay(h, flight[k]) {
      if k < |s.flight| { UnderWaySnoc(s.h, x, s.flight[k]); }
    }
    forall at | 0 <= at < |h| && h[at].Arrived? ensures InFlight(flight, at) || !Pending(h, at) {
      StaysAccounted(s, x, hd, at);
    }
  }

  lemma ArrivalIsAllowed(h: History, m: Message)
    ensures Allowed(h, Arrived(m))
  {
  }

  lemma StaysAccounted(s: State, x: Happening, hd: Handler, at: nat)
    requires Complete(s) && hd.at == |s.h| && at <= |s.h| && (at < |s.h| ==> s.h[at].Arrived?)
    ensures InFlight(s.flight + [hd], at) || !Pending(s.h + [x], at)
  {
    hide Pending, Concludes;
    PendingSnoc(s.h, x, at);
    if at == |s.h| {
      assert (s.flight + [hd])[|s.flight|].at == at;
    } else if InFlight(s.flight, at) {
      var k :| 0 <= k < |s.flight| && s.flight[k].at == at;
      assert (s.flight + [hd])[k].at == at;
    }
  }

  /** What a message comes to is allowed. */
  lemma ConcludingAllowed(h: History, hd: Handler)
    requires UnderWay(h, hd)
    ensures Allowed(h, Concluding(hd)) && Concludes(Concluding(hd), hd.at)
  {
    hide OpenRequest, LogOk, Legit, Reported, AttemptOf, Play, Pending, IsTurn;
    var m := hd.m;
    if Approves(hd) {
      AttemptIsLegit(m.env, false, true, hd.taken.value.call, m.outcome);
    } else if !(hd.taken.Some? && m.kind != Other) {
      EveryTurn(m.env, m.world, m.want);
      PlayFollows(m.env, m.world, m.want);
    }
  }

  lemma StaysInFlight(flight: seq<Handler>, k: nat, at: nat)
    requires k < |flight| && InFlight(flight, at) && flight[k].at != at
    ensures InFlight(Without(flight, k), at)
  {
    var j :| 0 <= j < |flight| && flight[j].at == at;
    assert Without(flight, k)[if j < k then j else j - 1].at == at;
  }

  /** Concluding a message leaves the others under way. */
  lemma OthersUnderWay(s: State, k: nat, x: Happening)
    requires Inv(s) && k < |s.flight| && !x.Arrived? && x.at == s.flight[k].at
    ensures var flight := Without(s.flight, k);
            && (forall i | 0 <= i < |flight| :: UnderWay(s.h + [x], flight[i]))
            && (forall i, j | 0 <= i < j < |flight| :: flight[i].at != flight[j].at)
  {
    hide Lawful, InStep, UnderWay, Complete;
    var flight := Without(s.flight, k);
    assert forall i | 0 <= i < |flight| :: flight[i] == s.flight[if i < k then i else i + 1];
    forall i | 0 <= i < |flight| ensures UnderWay(s.h + [x], flight[i]) {
      UnderWaySnoc(s.h, x, flight[i]);
    }
  }

  lemma StaysComplete(s: State, k: nat, x: Happening)
    requires Complete(s) && k < |s.flight| && !x.Arrived? && x.at == s.flight[k].at
    ensures forall at | 0 <= at < |s.h| + 1 && (s.h + [x])[at].Arrived? ::
              InFlight(Without(s.flight, k), at) || !Pending(s.h + [x], at)
  {
    hide Pending, InFlight, Without;
    var h := s.h + [x];
    forall at | 0 <= at < |h| && h[at].Arrived? ensures InFlight(Without(s.flight, k), at) || !Pending(h, at) {
      PendingSnoc(s.h, x, at);
      if InFlight(s.flight, at) && at != x.at { StaysInFlight(s.flight, k, at); }
    }
  }

  lemma ConcludeKeepsInv(s: State, k: nat)
    requires Inv(s) && k < |s.flight|
    ensures Inv(Next(s, Conclude(k)))
  {
    var x := Concluding(s.flight[k]);
    ConcludingAllowed(s.h, s.flight[k]);
    hide Concluding, Lawful, InStep, UnderWay, Pending, Allowed, Storing, InFlight, Without;
    LawfulSnoc(s.h, x);
    InStepSnoc(s.pending, s.h, x);
    OthersUnderWay(s, k, x);
    StaysComplete(s, k, x);
  }

  /** However messages overlap, within a chat or across chats: the history stays lawful, the store in step
      with it, and no message is forgotten. */
  lemma {:induction false} EveryRun(s: State, actions: seq<Action>, t: State)
    requires Inv(s) && Path(s, actions, t)
    ensures Inv(t)
    decreases |actions|
  {
    hide Inv, Next;
    if actions != [] {
      match actions[0] {
        case Arrive(m) => ArriveKeepsInv(s, m);
        case Conclude(k) => ConcludeKeepsInv(s, k);
      }
      EveryRun(Next(s, actions[0]), actions[1..], t);
    }
  }

  lemma StartsWell()
    ensures Inv(EMPTY)
  {
  }

  // ---------- what a lawful history guarantees ----------

  /** `x` leaves a request in a chat, or takes it. */
  predicate Touches(x: Happening, chat: string) {
    (x.Arrived? || (x.Ran? && EndsPending(x.log))) && x.m.chat == chat
  }

  predicate Requests(x: Happening, chat: string, r: Request) {
    x.Ran? && x.m.chat == chat && EndsPending(x.log) && r == RequestOf(x.m.env, x.log)
  }

  /** A request that is open was asked for, and nothing in its chat arrived or was asked after it. */
  lemma {:induction false} OpenWasAsked(h: History, chat: string) returns (s: nat)
    requires OpenRequest(h, chat).Some?
    ensures s < |h| && Requests(h[s], chat, OpenRequest(h, chat).value)
    ensures forall k | s < k < |h| :: !Touches(h[k], chat)
  {
    var n := |h| - 1;
    if Touches(h[n], chat) {
      s := n;
    } else {
      s := OpenWasAsked(h[..n], chat);
      assert forall k | s < k < n :: h[..n][k] == h[k];
    }
  }

  /** The request the turn `s` asked for authorises the run at `k`: the same call, asked in the same chat, by an
      affirmative reply that is the first message of the chat after it and no newer request between, from
      someone who may approve it. */
  ghost predicate Authorises(h: History, s: nat, k: nat) {
    && k < |h| && h[k].Consented? && s < h[k].at < k && h[h[k].at] == Arrived(h[k].m)
    && var m, r := h[k].m, h[k].request;
       && Requests(h[s], m.chat, r) && (forall i | s < i < h[k].at :: !Touches(h[i], m.chat))
       && m.kind == Affirmative && m.env.CanApprove(r.level) && h[k].e.Attempted? && h[k].e.call == r.call
  }

  /** Every approved run has a stored request that authorises it. */
  lemma ConsentHasRequest(h: History, k: nat) returns (s: nat)
    requires Lawful(h) && k < |h| && h[k].Consented?
    ensures Authorises(h, s, k)
  {
    hide OpenRequest, Legit, Reported, Requests, Touches, Pending;
    assert Allowed(h[..k], h[k]);
    var at := h[k].at;
    assert h[..k][..at] == h[..at] && h[..k][at] == h[at];
    s := OpenWasAsked(h[..at], h[k].m.chat);
    assert forall i | s <= i < at :: h[..at][i] == h[i];
  }

  /** No request authorises two runs, however messages overlap. */
  lemma ConsentIsSpentOnce(h: History, s: nat, j: nat, k: nat)
    requires Lawful(h) && Authorises(h, s, j) && Authorises(h, s, k)
    ensures j == k
  {
    hide OpenRequest, Legit, Reported;
    assert h[j].m.chat == h[s].m.chat == h[k].m.chat;
    assert h[j].at == h[k].at;
    assert Allowed(h[..j], h[j]) && Allowed(h[..k], h[k]);
    var first, last := if j < k then j else k, if j < k then k else j;
    assert forall i | 0 <= i < last :: h[..last][i] == h[i];
    assert Concludes(h[first], h[last].at);
  }

  /** Inside turns, bodies of tools that need consent never run; with `ConsentHasRequest` this covers
      every body the assistant runs. */
  lemma TurnsRunOnlyUngated(h: History, k: nat, i: nat)
    requires Lawful(h) && k < |h| && h[k].Ran? && i < |h[k].log| && h[k].log[i].Attempted? && h[k].log[i].ran
    ensures !h[k].m.env.NeedsApproval(h[k].log[i].call.name)
  {
    hide IsTurn;
    assert Allowed(h[..k], h[k]);
    RunsOnlyUngated(h[k].m.env, h[k].log, i);
  }

  /** What the message that arrived at `at` must come to. */
  ghost predicate ComesTo(h: History, at: nat, x: Happening)
    requires at < |h| && h[at].Arrived?
  {
    var m, open := h[at].m, OpenRequest(h[..at], h[at].m.chat);
    if open.Some? && m.kind == Affirmative && m.env.CanApprove(open.value.level) then
      // the stored call is tried, nothing else, and the body runs unless it is no longer there
      && x.Consented? && x.m == m && x.request == open.value
      && x.e.Attempted? && x.e.call == open.value.call && Reported(m.env, false, x.e, m.outcome)
      && (x.e.ran <==> x.e.call.name in m.env.usable && (m.env.Terminal(x.e.call.name) ==> m.env.verbatim))
    else if open.Some? && m.kind != Other then x == Declined(at, m)
    else x.Ran? && x.m == m && IsTurn(m.env, m.world, m.want, x.log, x.out)
  }

  lemma ConclusionIsDue(h: History, i: nat)
    requires Lawful(h) && i < |h| && !h[i].Arrived?
    ensures h[i].at < i && h[h[i].at].Arrived? && ComesTo(h, h[i].at, h[i])
  {
    hide OpenRequest, Reported, IsTurn, LogOk, Pending;
    assert Allowed(h[..i], h[i]);
    var at := h[i].at;
    assert h[..i][..at] == h[..at] && h[..i][at] == h[at];
  }

  /** A message that is no longer under way has come to what it must come to: an affirmative reply to an open
      request, by a caller who may approve it, has run the stored call. */
  lemma EveryMessageIsServed(s: State, at: nat) returns (i: nat)
    requires Inv(s) && at < |s.h| && s.h[at].Arrived? && !InFlight(s.flight, at)
    ensures at < i < |s.h| && Concludes(s.h[i], at) && ComesTo(s.h, at, s.h[i])
    ensures forall j | 0 <= j < |s.h| && Concludes(s.h[j], at) :: j == i
  {
    hide ComesTo, InStep, UnderWay, InFlight, Lawful, Allowed;
    assert !Pending(s.h, at);
    i :| 0 <= i < |s.h| && Concludes(s.h[i], at);
    ConclusionIsDue(s.h, i);
    forall j | 0 <= j < |s.h| && Concludes(s.h[j], at) ensures j == i {
      OneConclusion(s.h, i, j);
    }
  }

  lemma OneConclusion(h: History, i: nat, j: nat)
    requires Lawful(h) && i < |h| && j < |h| && !h[i].Arrived? && Concludes(h[j], h[i].at)
    ensures i == j
  {
    hide OpenRequest, Legit, Reported, IsTurn, LogOk;
    assert Allowed(h[..i], h[i]) && Allowed(h[..j], h[j]);
    var first, last := if i < j then i else j, if i < j then j else i;
    assert forall n | 0 <= n < last :: h[..last][n] == h[n];
    assert Concludes(h[first], h[last].at);
  }

  ghost predicate Served(s: State, at: nat)
    requires at < |s.h| && s.h[at].Arrived?
  {
    exists i :: at < i < |s.h| && Concludes(s.h[i], at) && ComesTo(s.h, at, s.h[i])
  }

  /** All of it, for every run from an empty store: with messages in flight at the end. */
  lemma OverlappingMessages(actions: seq<Action>, t: State)
    requires Path(EMPTY, actions, t)
    ensures Lawful(t.h) && InStep(t.pending, t.h)
    ensures forall k | 0 <= k < |t.h| && t.h[k].Consented? :: exists s :: Authorises(t.h, s, k)
    ensures forall s, j, k | Authorises(t.h, s, j) && Authorises(t.h, s, k) :: j == k
    ensures forall at | 0 <= at < |t.h| && t.h[at].Arrived? :: InFlight(t.flight, at) || Served(t, at)
  {
    StartsWell();
    EveryRun(EMPTY, actions, t);
    hide Lawful, Authorises, InFlight, ComesTo, Inv;
    assert Lawful(t.h) && InStep(t.pending, t.h) by { InvParts(t); }
    forall k | 0 <= k < |t.h| && t.h[k].Consented? ensures exists s :: Authorises(t.h, s, k) {
      var s := ConsentHasRequest(t.h, k);
    }
    forall s, j, k | Authorises(t.h, s, j) && Authorises(t.h, s, k) ensures j == k {
      ConsentIsSpentOnce(t.h, s, j, k);
    }
    forall at | 0 <= at < |t.h| && t.h[at].Arrived? ensures InFlight(t.flight, at) || Served(t, at) {
      if !InFlight(t.flight, at) { var i := EveryMessageIsServed(t, at); }
    }
  }

  lemma InvParts(s: State)
    requires Inv(s)
    ensures Lawful(s.h) && InStep(s.pending, s.h)
  {
  }
}
