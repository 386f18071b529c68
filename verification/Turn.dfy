/** The loop of one message in the form of the code (internal/assistant/assistant.go): the ledger and
    the approval store are updated in place, the exchanges grow by appends.  Each method computes its
    function in `TurnSpec`; `HandleTurn` also inherits everything proved about `Play`. */
module Turn {
  import opened Options
  import opened Tools
  import opened McpEvidence
  import opened Ledger
  import opened Approvals
  import opened TurnLog
  import opened TurnSpec
  import opened TurnRules
  import opened TurnProofs
  import opened TurnFollows

  type Store = map<string, Request>

  /** A request is stored exactly when the event is a call that waits for consent. */
  function Stored(env: Env, chat: string, e: Event, was: Store): Store {
    if e.Attempted? && e.result.pending then was[chat := Request(e.call, env.LevelOf(e.call.name))] else was
  }

  /** The same, for the last event of a history. */
  function StoredLast(env: Env, chat: string, log: Log, was: Store): Store {
    if log == [] then was else Stored(env, chat, log[|log| - 1], was)
  }

  /** `executeSkill`: the gates in order, then the body. */
  method ExecuteSkill(env: Env, approvals: ApprovalStore, chat: string, tainted: bool,
                      approvedId: Option<string>, call: ToolCall, outcome: SkillOutcome)
    returns (e: Event)
    modifies approvals
    ensures e == AttemptOf(env, tainted, approvedId == Some(call.id), call, outcome)
    ensures approvals.pending == Stored(env, chat, e, old(approvals.pending))
    ensures Reported(env, tainted, e, outcome)
    ensures e.ran <==>
            && (tainted ==> RemoteAllowed(call.name)) && (env.Terminal(call.name) ==> env.verbatim)
            && call.name in env.usable && (env.NeedsApproval(call.name) ==> approvedId == Some(call.id))
    ensures e.result.pending <==>
            && (tainted ==> RemoteAllowed(call.name)) && (env.Terminal(call.name) ==> env.verbatim)
            && call.name in env.usable && env.NeedsApproval(call.name) && approvedId != Some(call.id)
  {
    hide RemoteAllowed;
    AttemptIsLegit(env, tainted, approvedId == Some(call.id), call, outcome);
    var terminal := env.Terminal(call.name);
    if tainted && !RemoteAllowed(call.name) {
      return Attempted(call, ToolResult(call.id, "blocked", true, false, false), false, false);
    }
    if terminal && !env.verbatim {
      var content := env.message("TranslationChannelUnavailable");
      return Attempted(call, ToolResult(call.id, content, true, false, true), false, false);
    }
    if call.name !in env.usable {
      var content := if terminal then env.message("TranslationUnavailable") else "error: " + call.name;
      return Attempted(call, ToolResult(call.id, content, true, false, terminal), false, false);
    }
    var level := env.LevelOf(call.name);
    if level != Auto {
      var needsApproval := level == Prompt || (level == Manual && !env.admin);
      if needsApproval && approvedId != Some(call.id) {
        approvals.Set(chat, call, level);
        return Attempted(call, ToolResult(call.id, env.message("ApprovalAwaiting"), false, true, false), false, false);
      }
    }
    match outcome
    case Output(text, taints) =>
      e := Attempted(call, ToolResult(call.id, text, false, false, terminal), true, taints);
    case Broken(code, taints) =>
      e := Attempted(call, ToolResult(call.id, env.failureText(call.name, code), true, false, terminal), true, taints);
  }

  lemma EntriesStep(env: Env, log: Log, e: Event)
    ensures Entries(env, log + [e]) == Entries(env, log) + EntryOf(env, e)
  {
    assert (log + [e])[..|log|] == log;
  }

  /** A call that lets the turn go on stored no request and was no terminal attempt. */
  lemma GoesOn(env: Env, world: World, want: Want, t: Turn, call: ToolCall, chat: string, was: Store)
    requires !t.terminalAttempted
    ensures var c := Call(env, world, want, t, call);
            c.end.None? ==> !c.t.terminalAttempted && StoredLast(env, chat, c.t.log, was) == was
                            && c.t.exchanges == t.exchanges
  {
    hide AttemptOf, Boundary, Find, Entries;
  }

  /** One call of a batch. */
  method DoCall(env: Env, world: World, want: Want, approvals: ApprovalStore, ledger: ExplorationLedger,
                chat: string, t0: Turn, call: ToolCall)
    returns (t: Turn, result: ToolResult, end: Option<Outcome>)
    requires ledger.entries == Entries(env, t0.log) && !t0.terminalAttempted
    modifies ledger, approvals
    ensures Called(t, result, end) == Call(env, world, want, t0, call)
    ensures end.None? ==> ledger.entries == Entries(env, t.log)
    ensures approvals.pending == if t.log == t0.log then old(approvals.pending)
                                 else StoredLast(env, chat, t.log, old(approvals.pending))
  {
    hide AttemptOf, Boundary, Find, Entries;
    t, end := t0, None;
    var skipDedup := call.name in env.separate;
    var cached := ledger.IsDuplicate(call);
    if cached.Some? && !skipDedup {
      result := ToolResult(call.id, cached.value, false, false, false);
      t := t.(log := t.log + [Replayed(call, cached.value)]);
      EntriesStep(env, t0.log, Replayed(call, cached.value));
      return;
    }
    var terminal := env.Terminal(call.name);
    if terminal && want.required != "" && want.required != call.name && !t.requiredOk {
      return t, ToolResult(call.id, "", true, false, false), Some(Error(RequiredMissing));
    }
    if terminal && t.terminalAttempted {
      assert false;  // a second terminal attempt cannot happen
    }
    var e := ExecuteSkill(env, approvals, chat, t.tainted, None, call, world.skills(t.attempts));
    t := Advance(env, want, t, e);
    result := e.result;
    var response := Boundary(env, call.name, result);
    if response != "" {
      end := Some(FinishFixed(world, response, AtBoundary));
      return;
    }
    if terminal && !result.pending {
      end := Some(FinishFixed(world, result.content, TerminalResult));
      return;
    }
    EntriesStep(env, t0.log, e);
    if skipDedup {
      ledger.RecordNonCacheable(call, result);
    } else {
      ledger.Record(call, result);
    }
    if result.pending {
      end := Some(Awaiting(result.content));
    }
  }

  /** The calls of one answer, in order. */
  method RunBatch(env: Env, world: World, want: Want, approvals: ApprovalStore, ledger: ExplorationLedger,
                  chat: string, t0: Turn, calls: seq<ToolCall>)
    returns (t: Turn, end: Option<Outcome>)
    requires ledger.entries == Entries(env, t0.log) && !t0.terminalAttempted && calls != []
    requires StoredLast(env, chat, t0.log, approvals.pending) == approvals.pending
    modifies ledger, approvals
    ensures Batched(t, end) == Batch(env, world, want, t0, calls, 0, [])
    ensures end.None? ==> ledger.entries == Entries(env, t.log) && !t.terminalAttempted
    ensures approvals.pending == StoredLast(env, chat, t.log, old(approvals.pending))
    ensures end.None? ==> approvals.pending == old(approvals.pending)
  {
    hide Call, Entries;
    t, end := t0, None;
    var results, k := [], 0;
    while k < |calls|
      invariant 0 <= k <= |calls| && end.None? && !t.terminalAttempted
      invariant ledger.entries == Entries(env, t.log)
      invariant t.exchanges == t0.exchanges
      invariant Batch(env, world, want, t, calls, k, results) == Batch(env, world, want, t0, calls, 0, [])
      invariant approvals.pending == old(approvals.pending) == StoredLast(env, chat, t.log, old(approvals.pending))
    {
      GoesOn(env, world, want, t, calls[k], chat, approvals.pending);
      var result;
      t, result, end := DoCall(env, world, want, approvals, ledger, chat, t, calls[k]);
      if end.Some? {
        return;
      }
      results := results + [result];
      k := k + 1;
    }
    t := t.(exchanges := t.exchanges + [Exchange(calls, results)]);
  }

  /** Every call of a refused batch gets the same error result. */
  method RejectBatch(t0: Turn, calls: seq<ToolCall>) returns (t: Turn)
    ensures t == Reject(t0, calls)
  {
    var log, results := t0.log, [];
    for k := 0 to |calls|
      invariant log == t0.log + Rejections(calls[..k]) && results == Refusals(calls[..k])
    {
      assert calls[..k + 1][..k] == calls[..k];
      log := log + [Rejected(calls[k])];
      results := results + [Refusal(calls[k])];
    }
    assert calls[..|calls|] == calls;
    t := t0.(log := log, exchanges := t0.exchanges + [Exchange(calls, results)]);
  }

  /** An answer without calls. */
  method ConcludeText(env: Env, world: World, want: Want, t: Turn, i: nat, replanned: bool)
    returns (end: Option<Outcome>)
    ensures end == Conclude(env, world, want, t, i, replanned)
  {
    if want.mcp != "" {
      var met := RequirementMet(env, want.mcp, t.exchanges);
      if !met {
        if !replanned && i + 1 < MAX_ITERATIONS {
          return None;
        }
        return Some(FinishFixed(world, env.message("MCPNoVerifiedOperation"), NoEvidence));
      }
    }
    if want.required != "" && !t.requiredOk {
      return Some(Error(RequiredMissing));
    }
    return Some(Final(world.hook(t.content)));
  }

  /** All iterations are used up. */
  method Exhaust(env: Env, world: World, want: Want, t: Turn) returns (out: Outcome)
    ensures out == GiveUp(env, world, want, t)
  {
    if want.mcp != "" {
      var met := RequirementMet(env, want.mcp, t.exchanges);
      if !met {
        return FinishFixed(world, env.message("MCPNoVerifiedOperation"), NoEvidence);
      }
    }
    if want.required != "" && !t.requiredOk {
      return Error(RequiredMissing);
    }
    return Error(TooLong);
  }

  lemma PlainStep(env: Env, chat: string, log: Log, e: Event, was: Store)
    requires !ToolStep(e)
    ensures Entries(env, log + [e]) == Entries(env, log) && StoredLast(env, chat, log + [e], was) == was
  {
    EntriesStep(env, log, e);
    assert Entries(env, log) + [] == Entries(env, log);
  }

  lemma {:induction false} RejectStep(env: Env, chat: string, log: Log, calls: seq<ToolCall>, was: Store)
    requires calls != []
    ensures Entries(env, log + Rejections(calls)) == Entries(env, log)
    ensures StoredLast(env, chat, log + Rejections(calls), was) == was
  {
    var front, last := calls[..|calls| - 1], Rejected(calls[|calls| - 1]);
    assert log + Rejections(calls) == (log + Rejections(front)) + [last];
    PlainStep(env, chat, log + Rejections(front), last, was);
    if front != [] {
      RejectStep(env, chat, log, front, was);
    } else {
      assert log + [] == log;
    }
  }

  /** What one answer leads to. */
  method HandleAnswer(env: Env, world: World, want: Want, approvals: ApprovalStore, ledger: ExplorationLedger,
                      chat: string, t0: Turn, calls: seq<ToolCall>, i: nat, replanned0: bool, rejected0: bool)
    returns (t: Turn, end: Option<Outcome>, replanned: bool, rejected: bool)
    requires ledger.entries == Entries(env, t0.log) && !t0.terminalAttempted
    requires StoredLast(env, chat, t0.log, approvals.pending) == approvals.pending
    modifies ledger, approvals
    ensures Iterated(t, end, replanned, rejected) == Iterate(env, world, want, t0, calls, i, replanned0, rejected0)
    ensures end.None? ==> ledger.entries == Entries(env, t.log) && !t.terminalAttempted
                          && approvals.pending == old(approvals.pending)
    ensures approvals.pending == StoredLast(env, chat, t.log, old(approvals.pending))
  {
    hide Entries, Batch, Conclude, HasTerminal;
    t, end, replanned, rejected := t0, None, replanned0, rejected0;
    if calls == [] {
      end := ConcludeText(env, world, want, t, i, replanned);
      replanned := true;
    } else if HasTerminal(env, calls) && |calls| != 1 {
      if rejected {
        end := Some(FinishFixed(world, env.message("TranslationCombined"), Combined));
      } else {
        rejected := true;
        t := RejectBatch(t, calls);
        RejectStep(env, chat, t0.log, calls, approvals.pending);
      }
    } else {
      t, end := RunBatch(env, world, want, approvals, ledger, chat, t, calls);
    }
  }

  /** The whole turn.  Whatever the model answers and the skills do, the result is `Play`, and the
      approval store gains a request exactly when the history ends with a call that waits for consent. */
  method HandleTurn(env: Env, world: World, want: Want, approvals: ApprovalStore, chat: string)
    returns (out: Outcome, t: Turn)
    modifies approvals
    ensures Ended(out, t) == Play(env, world, want)
    ensures approvals.pending == StoredLast(env, chat, t.log, old(approvals.pending))
    ensures Justified(env, world, want, Ended(out, t))
    ensures Finished(env, world, want, Ended(out, t))
  {
    EveryTurn(env, world, want);
    PlayFollows(env, world, want);
    hide Finished, Entries, Iterate, GiveUp, StoredLast, Justified;
    var ledger := new ExplorationLedger();
    NothingRecorded(env, chat, approvals.pending);
    t := START;
    var i, compressed, replanned, rejected := 0, false, false, false;
    while i < MAX_ITERATIONS
      invariant 0 <= i <= MAX_ITERATIONS && (compressed ==> i < MAX_ITERATIONS)
      invariant ledger.entries == Entries(env, t.log) && !t.terminalAttempted && fresh(ledger)
      invariant approvals.pending == old(approvals.pending) == StoredLast(env, chat, t.log, old(approvals.pending))
      invariant Loop(env, world, want, t, i, compressed, replanned, rejected) == Play(env, world, want)
      decreases MAX_ITERATIONS - i, !compressed
    {
      var answer := world.answers(t.asked);
      PlainStep(env, chat, t.log, Asked, approvals.pending);
      t := AskModel(t);
      if answer.Overflow? && !compressed {
        PlainStep(env, chat, t.log, Compacted, approvals.pending);
        t := t.(log := t.log + [Compacted]);
        compressed := true;
        continue;  // the same iteration again
      }
      if !answer.Reply? {
        return Error(ProviderFailed), t;
      }
      compressed := false;
      PlainStep(env, chat, t.log, Replied(answer.calls), approvals.pending);
      t := Answered(t, answer);
      var end;
      t, end, replanned, rejected :=
        HandleAnswer(env, world, want, approvals, ledger, chat, t, answer.calls, i, replanned, rejected);
      if end.Some? {
        return end.value, t;
      }
      i := i + 1;
    }
    out := Exhaust(env, world, want, t);
  }

  lemma NothingRecorded(env: Env, chat: string, was: Store)
    ensures Entries(env, []) == [] && StoredLast(env, chat, [], was) == was
  {
  }
}
