/** A turn told by its history alone: which event may come after a history, and when the turn stops with which
    outcome (internal/assistant/assistant.go, lines 562-1042).  Nothing here mentions the loop.  The rules leave
    one turn for every model and every skills, and `TurnFollows` shows that the loop is that turn. */
module TurnRules {
  import opened Options
  import opened Tools
  import opened McpEvidence
  import opened Ledger
  import opened TurnLog
  import opened TurnSpec

  predicate IsAttempted(e: Event) { e.Attempted? }

  function Asks(log: Log): nat { Count(log, IsAsked) }

  function Replies(log: Log): nat { Count(log, IsReplied) }

  function Tries(log: Log): nat { Count(log, IsAttempted) }

  /** Where a history stands: before the first model call, at one (possibly made after a compression), just
      after a compression, or within an answer of which some calls have their results. */
  datatype Place =
    | AtStart
    | Asking(compacted: bool)
    | Compacting
    | Answering(calls: seq<ToolCall>, results: seq<ToolResult>)

  function PlaceOf(log: Log): Place {
    if log == [] then AtStart
    else
      var before, e := PlaceOf(log[..|log| - 1]), log[|log| - 1];
      match e
      case Asked => Asking(before.Compacting?)
      case Compacted => Compacting
      case Replied(calls) => Answering(calls, [])
      case _ => Answering(if before.Answering? then before.calls else [],
                          (if before.Answering? then before.results else []) + ResultOf(e))
  }

  predicate Last(log: Log, e: Event) { log != [] && log[|log| - 1] == e }

  /** The last event lets another step follow. */
  predicate GoesOn(env: Env, log: Log) { log == [] || LetsGoOn(env, log[|log| - 1]) }

  /** An answer whose calls all have results is stored as an exchange, unless its last call ends the turn. */
  function Exchanged(env: Env, log: Log): seq<Exchange> {
    if log == [] then []
    else
      var before, e, place := Exchanged(env, log[..|log| - 1]), log[|log| - 1], PlaceOf(log);
      if (e.Rejected? || e.Attempted? || e.Replayed?) && place.Answering? && |place.results| == |place.calls|
         && LetsGoOn(env, e)
      then before + [Exchange(place.calls, place.results)] else before
  }

  ghost predicate Unmet(env: Env, want: Want, log: Log) {
    want.mcp != "" && !Met(env, want.mcp, Exchanged(env, log))
  }

  ghost predicate Missing(want: Want, log: Log) {
    want.required != "" && !SucceededIn(log, want.required)
  }

  /** A text without calls has been sent back once already. */
  predicate Replanned(log: Log) { Replied([]) in log }

  predicate Refused(log: Log) { exists k | 0 <= k < |log| :: log[k].Rejected? }

  predicate More(log: Log) { Replies(log) < MAX_ITERATIONS }

  /** A terminal tool shares its answer. */
  predicate Mixed(env: Env, calls: seq<ToolCall>) {
    |calls| > 1 && exists k | 0 <= k < |calls| :: env.Terminal(calls[k].name)
  }

  /** What is reported of an attempt: the body's own outcome if it ran, a fixed text if it did not. */
  ghost predicate Reported(env: Env, tainted: bool, e: Event, outcome: SkillOutcome)
    requires e.Attempted?
  {
    var name, r := e.call.name, e.result;
    if e.ran then
      && e.taints == outcome.taints && r.isError == outcome.Broken? && r.terminal == env.Terminal(name)
      && r.content == (if outcome.Output? then outcome.text else env.failureText(name, outcome.code))
    else
      && !e.taints
      && (tainted && !RemoteAllowed(name) ==> r.content == "blocked" && !r.terminal)
      && (r.pending ==> r.content == env.message("ApprovalAwaiting") && !r.terminal)
      && (!(tainted && !RemoteAllowed(name)) && !r.pending ==>
            && r.terminal == env.Terminal(name)
            && r.content == if env.Terminal(name)
                            then env.message(if env.verbatim then "TranslationUnavailable"
                                             else "TranslationChannelUnavailable")
                            else "error: " + name)
  }

  // ---------- the rules ----------

  /** A terminal tool may not come before the tool the message requires. */
  ghost predicate TooEarly(env: Env, want: Want, log: Log, call: ToolCall) {
    env.Terminal(call.name) && want.required != call.name && Missing(want, log)
  }

  /** The ledger answers. */
  predicate Replayable(env: Env, log: Log, call: ToolCall) {
    call.name !in env.separate && Find(Entries(env, log), call.name, call.key).Some?
  }

  /** What may become of a call. */
  ghost predicate CallGoes(env: Env, world: World, want: Want, log: Log, call: ToolCall, e: Event) {
    if Replayable(env, log, call) then e == Replayed(call, Find(Entries(env, log), call.name, call.key).value)
    else
      && !TooEarly(env, want, log, call)
      && e.Attempted? && e.call == call && Legit(env, Tainted(log), false, e)
      && Reported(env, Tainted(log), e, world.skills(Tries(log)))
  }

  /** What may follow a history. */
  ghost predicate Goes(env: Env, world: World, want: Want, log: Log, e: Event) {
    match PlaceOf(log)
    case AtStart => e == Asked
    case Compacting => e == Asked
    case Asking(compacted) =>
      Asks(log) > 0 &&
      var a := world.answers(Asks(log) - 1);
      if a.Reply? then e == Replied(a.calls) else a.Overflow? && !compacted && e == Compacted
    case Answering(calls, results) =>
      GoesOn(env, log) &&
      if calls == [] then e == Asked && Unmet(env, want, log) && !Replanned(log[..|log| - 1]) && More(log)
      else if |results| >= |calls| then e == Asked && More(log)
      else if Mixed(env, calls) then
        e == Rejected(calls[|results|]) && |results| < |log| && !Refused(log[..|log| - |results|])
      else CallGoes(env, world, want, log, calls[|results|], e)
  }

  /** A literal text is returned if it could be stored. */
  function Literal(world: World, text: string, why: Reason): Outcome {
    if world.saved then Fixed(text, why) else Error(NotSaved)
  }

  /** When the turn stops at a history, and how. */
  ghost predicate Stops(env: Env, world: World, want: Want, log: Log, out: Outcome) {
    match PlaceOf(log)
    case AtStart => false
    case Compacting => false
    case Asking(compacted) =>
      Asks(log) > 0 &&
      var a := world.answers(Asks(log) - 1);
      (a.ProviderError? || (a.Overflow? && compacted)) && out == Error(ProviderFailed)
    case Answering(calls, results) =>
      if !GoesOn(env, log) then
        var e := log[|log| - 1];
        var response := Boundary(env, e.call.name, e.result);
        out == if response != "" then Literal(world, response, AtBoundary)
               else if e.result.pending then Awaiting(e.result.content)
               else Literal(world, e.result.content, TerminalResult)
      else if calls == [] && Unmet(env, want, log) then
        && (Replanned(log[..|log| - 1]) || !More(log))
        && out == Literal(world, env.message("MCPNoVerifiedOperation"), NoEvidence)
      else if calls == [] && Missing(want, log) then out == Error(RequiredMissing)
      else if calls == [] then
        Asks(log) > 0 && var a := world.answers(Asks(log) - 1); a.Reply? && out == Final(world.hook(a.content))
      else if |results| >= |calls| then
        && !More(log)
        && out == if Unmet(env, want, log) then Literal(world, env.message("MCPNoVerifiedOperation"), NoEvidence)
                  else if Missing(want, log) then Error(RequiredMissing)
                  else Error(TooLong)
      else if Mixed(env, calls) then
        && |results| < |log| && Refused(log[..|log| - |results|])
        && out == Literal(world, env.message("TranslationCombined"), Combined)
      else
        && !Replayable(env, log, calls[|results|]) && TooEarly(env, want, log, calls[|results|])
        && out == Error(RequiredMissing)
  }

  ghost predicate Followed(env: Env, world: World, want: Want, log: Log) {
    forall k | 0 <= k < |log| :: Goes(env, world, want, log[..k], log[k])
  }

  /** A whole turn by the rules. */
  ghost predicate IsTurn(env: Env, world: World, want: Want, log: Log, out: Outcome) {
    Followed(env, world, want, log) && Stops(env, world, want, log, out)
  }

  // ---------- the rules leave one turn ----------

  /** Two attempts of a call under the same circumstances are the same. */
  lemma OneAttempt(env: Env, tainted: bool, e: Event, f: Event, outcome: SkillOutcome)
    requires e.Attempted? && f.Attempted? && e.call == f.call
    requires Legit(env, tainted, false, e) && Reported(env, tainted, e, outcome)
    requires Legit(env, tainted, false, f) && Reported(env, tainted, f, outcome)
    ensures e == f
  {
    hide RemoteAllowed;
  }

  lemma OneSuccessor(env: Env, world: World, want: Want, log: Log, e: Event, f: Event)
    requires Goes(env, world, want, log, e) && Goes(env, world, want, log, f)
    ensures e == f
  {
    hide Legit, Reported, LetsGoOn, Unmet, Find, Entries, Exchanged, Count;
    var place := PlaceOf(log);
    if place.Answering? && place.calls != [] && |place.results| < |place.calls| && !Mixed(env, place.calls)
       && !Replayable(env, log, place.calls[|place.results|])
    {
      OneAttempt(env, Tainted(log), e, f, world.skills(Tries(log)));
    }
  }

  lemma OneOutcome(env: Env, world: World, want: Want, log: Log, out: Outcome, other: Outcome)
    requires Stops(env, world, want, log, out) && Stops(env, world, want, log, other)
    ensures out == other
  {
    hide LetsGoOn, Unmet, Find, Entries, Exchanged, Count, Boundary, Mixed;
  }

  /** Where the turn stops nothing follows. */
  lemma StopsOrGoes(env: Env, world: World, want: Want, log: Log, out: Outcome, e: Event)
    requires Stops(env, world, want, log, out)
    ensures !Goes(env, world, want, log, e)
  {
    hide LetsGoOn, Unmet, Find, Entries, Exchanged, Count, Boundary, Mixed, Legit, Reported;
  }

  lemma {:induction false} CommonPrefix(env: Env, world: World, want: Want, a: Log, b: Log, n: nat)
    requires Followed(env, world, want, a) && Followed(env, world, want, b) && n <= |a| && n <= |b|
    ensures a[..n] == b[..n]
  {
    hide Goes;
    if n > 0 {
      CommonPrefix(env, world, want, a, b, n - 1);
      assert Goes(env, world, want, a[..n - 1], a[n - 1]) && Goes(env, world, want, b[..n - 1], b[n - 1]);
      OneSuccessor(env, world, want, a[..n - 1], a[n - 1], b[n - 1]);
      assert a[..n] == a[..n - 1] + [a[n - 1]] && b[..n] == b[..n - 1] + [b[n - 1]];
    }
  }

  /** For every registry, model, skills and demands there is at most one turn. */
  lemma OnlyOneTurn(env: Env, world: World, want: Want, a: Log, x: Outcome, b: Log, y: Outcome)
    requires IsTurn(env, world, want, a, x) && IsTurn(env, world, want, b, y)
    ensures a == b && x == y
  {
    hide Goes, Stops;
    var n := if |a| <= |b| then |a| else |b|;
    CommonPrefix(env, world, want, a, b, n);
    assert a[..|a|] == a && b[..|b|] == b;
    if |a| < |b| {
      assert Goes(env, world, want, b[..n], b[n]);
      StopsOrGoes(env, world, want, a, x, b[n]);
    } else if |b| < |a| {
      assert Goes(env, world, want, a[..n], a[n]);
      StopsOrGoes(env, world, want, b, y, a[n]);
    } else {
      OneOutcome(env, world, want, a, x, y);
    }
  }

  // ---------- recovering from an overflow ----------

  lemma PlaceSnoc(log: Log, e: Event)
    ensures e.Asked? ==> PlaceOf(log + [e]) == Asking(PlaceOf(log).Compacting?)
    ensures e.Compacted? ==> PlaceOf(log + [e]) == Compacting
    ensures e.Replied? ==> PlaceOf(log + [e]) == Answering(e.calls, [])
  {
    assert (log + [e])[..|log|] == log;
  }

  lemma CompactingMeans(log: Log)
    ensures PlaceOf(log).Compacting? <==> Last(log, Compacted)
  {
  }

  /** A turn fails for its provider only if the last call failed for another reason than its size, or was
      still too large right after a compression. */
  lemma FailsOnlyWhenStuck(env: Env, world: World, want: Want, log: Log, out: Outcome)
    requires IsTurn(env, world, want, log, out) && out == Error(ProviderFailed)
    ensures Last(log, Asked) && Asks(log) > 0
    ensures var a := world.answers(Asks(log) - 1);
            a.ProviderError? || (a.Overflow? && |log| > 1 && log[|log| - 2] == Compacted)
  {
    hide LetsGoOn, Unmet, Find, Entries, Exchanged, Count, Boundary, Mixed, Legit, Reported, Goes;
    var n := |log| - 1;
    assert log == log[..n] + [log[n]];
    PlaceSnoc(log[..n], log[n]);
    CompactingMeans(log[..n]);
  }

  lemma OverflowGoes(env: Env, world: World, want: Want, log: Log)
    requires PlaceOf(log) == Asking(false) && Asks(log) > 0 && world.answers(Asks(log) - 1).Overflow?
    ensures forall out :: !Stops(env, world, want, log, out)
    ensures forall e :: Goes(env, world, want, log, e) ==> e == Compacted
  {
  }

  lemma CompressionGoes(env: Env, world: World, want: Want, log: Log)
    requires PlaceOf(log).Compacting?
    ensures forall out :: !Stops(env, world, want, log, out)
    ensures forall e :: Goes(env, world, want, log, e) ==> e == Asked
  {
  }

  lemma AsksSnoc(log: Log)
    ensures Asks(log + [Asked]) == Asks(log) + 1
  {
    assert (log + [Asked])[..|log|] == log;
  }

  /** An overflow that does not come right after a compression is followed by one, and by another try. */
  lemma OverflowIsRetried(env: Env, world: World, want: Want, log: Log, out: Outcome, k: nat)
    requires IsTurn(env, world, want, log, out) && k < |log| && log[k] == Asked
    requires world.answers(Asks(log[..k])).Overflow? && !Last(log[..k], Compacted)
    ensures k + 2 < |log| && log[k + 1] == Compacted && log[k + 2] == Asked
  {
    hide Goes, Stops, Count, PlaceOf;
    var p := log[..k] + [Asked];
    assert log[..k + 1] == p;
    PlaceSnoc(log[..k], Asked);
    CompactingMeans(log[..k]);
    AsksSnoc(log[..k]);
    OverflowGoes(env, world, want, p);
    assert log[..|log|] == log;
    assert k + 1 < |log| && Goes(env, world, want, log[..k + 1], log[k + 1]);
    assert log[..k + 2] == p + [Compacted];
    PlaceSnoc(p, Compacted);
    CompressionGoes(env, world, want, log[..k + 2]);
    assert k + 2 < |log| && Goes(env, world, want, log[..k + 2], log[k + 2]);
  }

  // ---------- what the bodies returned reaches the history ----------

  lemma AttemptGoesByRule(env: Env, world: World, want: Want, log: Log, e: Event)
    requires Goes(env, world, want, log, e) && e.Attempted?
    ensures Legit(env, Tainted(log), false, e) && Reported(env, Tainted(log), e, world.skills(Tries(log)))
  {
    hide LetsGoOn, Unmet, Find, Entries, Exchanged, Count, Mixed, Legit, Reported, Replayable, TooEarly;
  }

  /** The attempts of a turn report the outcomes of the bodies, in order. */
  lemma OutcomesReachTheTurn(env: Env, world: World, want: Want, log: Log, k: nat)
    requires Followed(env, world, want, log) && k < |log| && log[k].Attempted?
    ensures Legit(env, Tainted(log[..k]), false, log[k])
    ensures Reported(env, Tainted(log[..k]), log[k], world.skills(Tries(log[..k])))
  {
    hide Goes;
    assert Goes(env, world, want, log[..k], log[k]);
    AttemptGoesByRule(env, world, want, log[..k], log[k]);
  }

  /** Once a body has returned remote output, only the remote diagnostics set runs. */
  lemma RemoteOutputConfines(env: Env, world: World, want: Want, log: Log, j: nat, k: nat)
    requires Followed(env, world, want, log) && j < k < |log| && log[j].Attempted? && log[j].ran
    requires world.skills(Tries(log[..j])).taints && log[k].Attempted? && log[k].ran
    ensures RemoteAllowed(log[k].call.name)
  {
    hide RemoteAllowed, Goes, Count;
    OutcomesReachTheTurn(env, world, want, log, j);
    OutcomesReachTheTurn(env, world, want, log, k);
    assert Taints(log[..k][j]);
  }
}
