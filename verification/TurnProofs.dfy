/** What every turn keeps, whatever the model and the skills do: its history obeys the rules of
    `TurnLog`, its calls are bounded, and its outcome is justified. */
module TurnProofs {
  import opened Options
  import opened Tools
  import opened McpEvidence
  import opened Ledger
  import opened TurnLog
  import opened TurnSpec
  import opened TurnRules

  /** What holds between two events of a turn that goes on. */
  ghost predicate Coherent(env: Env, want: Want, t: Turn) {
    && LogOk(env, t.log) && Quiet(env, t.log)
    && t.tainted == Tainted(t.log)
    && t.requiredOk == SucceededIn(t.log, want.required)
    && !t.terminalAttempted
  }

  /** The ways one call can end the turn, each with the event that explains it. */
  ghost predicate EndsHere(env: Env, want: Want, before: Log, t: Turn, call: ToolCall, out: Outcome) {
    match out
    case Error(RequiredMissing) =>
      t.log == before && env.Terminal(call.name) && want.required != "" && !SucceededIn(t.log, want.required)
    case Fixed(text, why) =>
      && |t.log| == |before| + 1 && t.log[..|before|] == before
      && var e := t.log[|before|];
         && e.Attempted? && e.call == call
         && (if why == AtBoundary then text == Boundary(env, call.name, e.result) && text != ""
             else why == TerminalResult && env.Terminal(call.name) && !e.result.pending && text == e.result.content
                  && Boundary(env, call.name, e.result) == "")
    case Error(NotSaved) =>
      && |t.log| == |before| + 1 && t.log[..|before|] == before
      && t.log[|before|].Attempted? && !LetsGoOn(env, t.log[|before|])
    case Awaiting(text) =>
      && |t.log| == |before| + 1 && t.log[..|before|] == before
      && var e := t.log[|before|];
         e.Attempted? && e.call == call && e.result.pending && text == e.result.content
    case _ => false
  }

  /** A literal text is returned exactly when it could be stored. */
  ghost predicate Honest(world: World, out: Outcome) {
    (out.Fixed? ==> world.saved) && (out == Error(NotSaved) ==> !world.saved)
  }

  ghost predicate LastIs(t: Turn, e: Event) {
    t.log != [] && t.log[|t.log| - 1] == e
  }

  // ---------- one call ----------

  /** Trying a call comes to what its gate prescribes, and reports what the body returned. */
  lemma AttemptIsLegit(env: Env, tainted: bool, approved: bool, call: ToolCall, outcome: SkillOutcome)
    ensures Legit(env, tainted, approved, AttemptOf(env, tainted, approved, call, outcome))
    ensures Reported(env, tainted, AttemptOf(env, tainted, approved, call, outcome), outcome)
  {
    hide RemoteAllowed;
  }

  lemma AfterAttempt(env: Env, want: Want, t: Turn, e: Event)
    requires Coherent(env, want, t) && e.Attempted? && Legit(env, t.tainted, false, e)
    requires e.call.name in env.separate || Find(Entries(env, t.log), e.call.name, e.call.key).None?
    requires env.Terminal(e.call.name) ==> LastIs(t, Replied([e.call]))
    ensures LogOk(env, t.log + [e])
    ensures LetsGoOn(env, e) ==> Coherent(env, want, Advance(env, want, t, e))
  {
    hide Boundary, Judge;
    assert EventOk(env, t.log, e);
    Extend(env, t.log, e);
  }

  lemma AfterReplay(env: Env, want: Want, t: Turn, call: ToolCall, content: string)
    requires Coherent(env, want, t)
    requires call.name !in env.separate && Find(Entries(env, t.log), call.name, call.key) == Some(content)
    ensures Coherent(env, want, t.(log := t.log + [Replayed(call, content)]))
  {
    hide Boundary, Judge;
    var e := Replayed(call, content);
    assert EventOk(env, t.log, e);
    Extend(env, t.log, e);
  }

  lemma EndFitsEvent(env: Env, world: World, want: Want, t: Turn, e: Event)
    requires e.Attempted?
    ensures EndOf(env, world, e).None? <==> LetsGoOn(env, e)
    ensures EndOf(env, world, e).Some? ==>
      && EndsHere(env, want, t.log, Advance(env, want, t, e), e.call, EndOf(env, world, e).value)
      && Honest(world, EndOf(env, world, e).value)
  {
    hide Boundary;
    assert (t.log + [e])[..|t.log|] == t.log;
  }

  predicate ToolStep(e: Event) {
    e.Attempted? || e.Replayed?
  }

  /** One call: the turn goes on with one more event, or ends for a reason its last event shows. */
  lemma CallOk(env: Env, world: World, want: Want, t: Turn, call: ToolCall)
    requires Coherent(env, want, t) && (env.Terminal(call.name) ==> LastIs(t, Replied([call])))
    ensures var c := Call(env, world, want, t, call);
      && LogOk(env, c.t.log)
      && c.t.exchanges == t.exchanges && c.t.asked == t.asked && c.t.content == t.content
      && (c.end.None? ==>
            && Coherent(env, want, c.t) && |c.t.log| > 0
            && var e := c.t.log[|c.t.log| - 1];
               && c.t.log == t.log + [e] && ToolStep(e)
               && CallOf(e) == [call] && ResultOf(e) == [c.result] && c.result.callId == call.id)
      && (c.end.Some? ==> EndsHere(env, want, t.log, c.t, call, c.end.value) && Honest(world, c.end.value))
  {
    hide Reported;
    var cached := Find(Entries(env, t.log), call.name, call.key);
    var e := AttemptOf(env, t.tainted, false, call, world.skills(t.attempts));
    AttemptIsLegit(env, t.tainted, false, call, world.skills(t.attempts));
    EndFitsEvent(env, world, want, t, e);
    hide LogOk, Quiet, Entries, Tainted, SucceededIn, AttemptOf, Judge, Boundary, EndOf, EndsHere,
         Honest, LetsGoOn, Legit;
    if cached.Some? && call.name !in env.separate {
      AfterReplay(env, want, t, call, cached.value);
    } else if env.Terminal(call.name) && want.required != "" && want.required != call.name && !t.requiredOk {
      RequiredFirst(env, want, t, call);
    } else {
      ResultCarriesId(env, t.tainted, e);
      AfterAttempt(env, want, t, e);
    }
  }

  lemma ResultCarriesId(env: Env, tainted: bool, e: Event)
    requires e.Attempted? && Legit(env, tainted, false, e)
    ensures e.result.callId == e.call.id
  {
  }

  lemma RequiredFirst(env: Env, want: Want, t: Turn, call: ToolCall)
    requires Coherent(env, want, t) && env.Terminal(call.name) && want.required != "" && !t.requiredOk
    ensures EndsHere(env, want, t.log, t, call, Error(RequiredMissing))
    ensures forall world :: Honest(world, Error(RequiredMissing))
  {
  }

  // ---------- a batch ----------

  /** `log` continues `before` with tool steps only. */
  ghost predicate ToolSteps(before: Log, log: Log) {
    |before| <= |log| && log[..|before|] == before && forall k | |before| <= k < |log| :: ToolStep(log[k])
  }

  lemma {:induction false} ToolStepsCount(before: Log, log: Log, p: Event -> bool)
    requires ToolSteps(before, log) && forall e: Event | ToolStep(e) :: !p(e)
    ensures Count(log, p) == Count(before, p)
  {
    if |log| == |before| {
      assert log == before;
    } else {
      assert log[..|log| - 1][..|before|] == before;
      ToolStepsCount(before, log[..|log| - 1], p);
    }
  }

  function FlatCalls(exchanges: seq<Exchange>): seq<ToolCall> {
    if exchanges == [] then [] else FlatCalls(exchanges[..|exchanges| - 1]) + exchanges[|exchanges| - 1].calls
  }

  function FlatResults(exchanges: seq<Exchange>): seq<ToolResult> {
    if exchanges == [] then [] else FlatResults(exchanges[..|exchanges| - 1]) + exchanges[|exchanges| - 1].results
  }

  /** Some tool step of the history answered this call with this result. */
  ghost predicate Tried(log: Log, call: ToolCall, result: ToolResult) {
    exists k | 0 <= k < |log| :: ToolStep(log[k]) && log[k].call == call && ResultOf(log[k]) == [result]
  }

  /** An exchange was refused as a whole, or each of its results is what a tool step made of its call. */
  ghost predicate Grounded(log: Log, ex: Exchange) {
    || ex.results == Refusals(ex.calls)
    || (|ex.results| == |ex.calls| && forall k | 0 <= k < |ex.calls| :: Tried(log, ex.calls[k], ex.results[k]))
  }

  /** The exchanges the model is shown are the history: one result per call, in order, under its id. */
  ghost predicate Shown(t: Turn) {
    && AllPaired(t.exchanges)
    && FlatCalls(t.exchanges) == LogCalls(t.log)
    && FlatResults(t.exchanges) == LogResults(t.log)
    && forall k | 0 <= k < |t.exchanges| :: Grounded(t.log, t.exchanges[k])
  }

  lemma FlatStep(log: Log, e: Event)
    ensures LogCalls(log + [e]) == LogCalls(log) + CallOf(e)
    ensures LogResults(log + [e]) == LogResults(log) + ResultOf(e)
  {
    assert (log + [e])[..|log|] == log;
  }

  lemma TriedLater(log: Log, more: Log, call: ToolCall, result: ToolResult)
    requires Tried(log, call, result) && |log| <= |more| && more[..|log|] == log
    ensures Tried(more, call, result)
  {
    var k :| 0 <= k < |log| && ToolStep(log[k]) && log[k].call == call && ResultOf(log[k]) == [result];
    assert more[..|log|][k] == more[k];
  }

  lemma GroundedLater(log: Log, more: Log, ex: Exchange)
    requires Grounded(log, ex) && |log| <= |more| && more[..|log|] == log
    ensures Grounded(more, ex)
  {
    hide Tried;
    if ex.results != Refusals(ex.calls) {
      forall k | 0 <= k < |ex.calls| ensures Tried(more, ex.calls[k], ex.results[k]) {
        TriedLater(log, more, ex.calls[k], ex.results[k]);
      }
    }
  }

  /** Storing the exchange of a finished batch. */
  lemma ShownAppend(t0: Turn, t: Turn, ex: Exchange)
    requires Shown(t0) && Paired(ex.calls, ex.results) && t.exchanges == t0.exchanges + [ex]
    requires |t0.log| <= |t.log| && t.log[..|t0.log|] == t0.log && Grounded(t.log, ex)
    requires LogCalls(t.log) == LogCalls(t0.log) + ex.calls
    requires LogResults(t.log) == LogResults(t0.log) + ex.results
    ensures Shown(t)
  {
    hide LogCalls, LogResults, Grounded, Paired;
    assert t.exchanges[..|t0.exchanges|] == t0.exchanges;
    forall k | 0 <= k < |t.exchanges|
      ensures Paired(t.exchanges[k].calls, t.exchanges[k].results) && Grounded(t.log, t.exchanges[k])
    {
      if k < |t0.exchanges| {
        assert t.exchanges[k] == t0.exchanges[k];
        GroundedLater(t0.log, t.log, t0.exchanges[k]);
      }
    }
  }

  /** Events that answer no call keep the exchanges in step with the history. */
  lemma ShownLater(t0: Turn, t: Turn)
    requires Shown(t0) && t.exchanges == t0.exchanges
    requires |t0.log| <= |t.log| && t.log[..|t0.log|] == t0.log
    requires LogCalls(t.log) == LogCalls(t0.log) && LogResults(t.log) == LogResults(t0.log)
    ensures Shown(t)
  {
    hide LogCalls, LogResults, Grounded, AllPaired, FlatCalls, FlatResults;
    forall k | 0 <= k < |t.exchanges| ensures Grounded(t.log, t.exchanges[k]) {
      GroundedLater(t0.log, t.log, t0.exchanges[k]);
    }
  }

  ghost predicate Ends(env: Env, want: Want, t: Turn, out: Outcome) {
    exists before, call :: EndsHere(env, want, before, t, call, out)
  }

  lemma EndedBatch(env: Env, want: Want, start: Log, before: Log, t: Turn, call: ToolCall, out: Outcome)
    requires EndsHere(env, want, before, t, call, out) && ToolSteps(start, before)
    ensures Ends(env, want, t, out) && ToolSteps(start, t.log)
  {
    forall k | |start| <= k < |t.log| ensures ToolStep(t.log[k]) {
      if k < |before| {
        assert t.log[..|before|][k] == before[k];
      }
    }
    assert t.log[..|start|] == t.log[..|before|][..|start|];
  }

  /** What the batch has done when it stands at call `k`. */
  ghost predicate MidBatch(env: Env, want: Want, t0: Turn, t: Turn, calls: seq<ToolCall>, k: nat,
                           results: seq<ToolResult>)
    requires k <= |calls|
  {
    && Coherent(env, want, t) && ToolSteps(t0.log, t.log)
    && t.exchanges == t0.exchanges && t.asked == t0.asked && t.content == t0.content
    && Paired(calls[..k], results)
    && (forall m | 0 <= m < k :: Tried(t.log, calls[m], results[m]))
    && LogCalls(t.log) == LogCalls(t0.log) + calls[..k]
    && LogResults(t.log) == LogResults(t0.log) + results
    && (k == 0 ==> t.log == t0.log)
  }

  lemma MidBatchStep(env: Env, want: Want, t0: Turn, t: Turn, t': Turn, calls: seq<ToolCall>, k: nat,
                     results: seq<ToolResult>, result: ToolResult, e: Event)
    requires k < |calls| && MidBatch(env, want, t0, t, calls, k, results) && Coherent(env, want, t')
    requires t'.exchanges == t.exchanges && t'.asked == t.asked && t'.content == t.content
    requires t'.log == t.log + [e] && ToolStep(e)
    requires CallOf(e) == [calls[k]] && ResultOf(e) == [result] && result.callId == calls[k].id
    ensures MidBatch(env, want, t0, t', calls, k + 1, results + [result])
  {
    hide Coherent, LogCalls, LogResults, Tried;
    FlatStep(t.log, e);
    assert calls[..k + 1] == calls[..k] + [calls[k]];
    forall m | 0 <= m < k + 1 ensures Tried(t'.log, calls[m], (results + [result])[m]) {
      if m < k {
        TriedLater(t.log, t'.log, calls[m], results[m]);
      } else {
        LastTried(t.log, e, calls[k], result);
      }
    }
    assert t'.log[..|t0.log|] == t.log[..|t0.log|];
  }

  lemma LastTried(log: Log, e: Event, call: ToolCall, result: ToolResult)
    requires ToolStep(e) && CallOf(e) == [call] && ResultOf(e) == [result]
    ensures Tried(log + [e], call, result)
  {
    assert (log + [e])[|log|] == e;
  }

  lemma {:induction false} BatchOk(env: Env, world: World, want: Want, t0: Turn, t: Turn, calls: seq<ToolCall>, k: nat,
                                   results: seq<ToolResult>)
    requires k <= |calls| && MidBatch(env, want, t0, t, calls, k, results) && Shown(t0)
    requires LastIs(t0, Replied(calls)) && (HasTerminal(env, calls) ==> |calls| == 1)
    ensures var b := Batch(env, world, want, t, calls, k, results);
      && LogOk(env, b.t.log) && ToolSteps(t0.log, b.t.log)
      && b.t.asked == t0.asked && b.t.content == t0.content
      && (b.end.None? ==> Coherent(env, want, b.t) && Shown(b.t))
      && (b.end.Some? ==> b.t.exchanges == t0.exchanges)
      && (b.end.Some? ==> Ends(env, want, b.t, b.end.value) && Honest(world, b.end.value))
    decreases |calls| - k
  {
    hide LogOk, Quiet, Entries, Tainted, SucceededIn, LogCalls, LogResults, AllPaired, FlatCalls, FlatResults, EndsHere,
         Call, Tried, Honest;
    if k == |calls| {
      assert calls[..k] == calls;
      var ex := Exchange(calls, results);
      ShownAppend(t0, t.(exchanges := t.exchanges + [ex]), ex);
    } else {
      assert env.Terminal(calls[k].name) ==> HasTerminal(env, calls);
      assert env.Terminal(calls[k].name) ==> k == 0 && calls == [calls[k]];
      CallOk(env, world, want, t, calls[k]);
      var c := Call(env, world, want, t, calls[k]);
      if c.end.Some? {
        EndedBatch(env, want, t0.log, t.log, c.t, calls[k], c.end.value);
      } else {
        MidBatchStep(env, want, t0, t, c.t, calls, k, results, c.result, c.t.log[|c.t.log| - 1]);
        BatchOk(env, world, want, t0, c.t, calls, k + 1, results + [c.result]);
      }
    }
  }

  // ---------- a refused batch ----------

  lemma {:induction false} RefusalsPaired(calls: seq<ToolCall>)
    ensures Paired(calls, Refusals(calls))
  {
    if calls != [] {
      RefusalsPaired(calls[..|calls| - 1]);
    }
  }

  lemma {:induction false} RejectionsAre(calls: seq<ToolCall>)
    ensures |Rejections(calls)| == |calls|
    ensures forall k | 0 <= k < |calls| :: Rejections(calls)[k] == Rejected(calls[k])
  {
    if calls != [] {
      RejectionsAre(calls[..|calls| - 1]);
    }
  }

  lemma {:induction false} AfterRejecting(env: Env, want: Want, t: Turn, i: nat, calls: seq<ToolCall>)
    requires Coherent(env, want, t) && Counted(t, i, false)
    ensures var t' := t.(log := t.log + Rejections(calls));
            && Coherent(env, want, t') && Counted(t', i, false)
            && LogCalls(t'.log) == LogCalls(t.log) + calls
            && LogResults(t'.log) == LogResults(t.log) + Refusals(calls)
  {
    hide Coherent, Counted, LogCalls, LogResults;
    if calls == [] {
      assert t.log + [] == t.log;
      assert LogCalls(t.log) + [] == LogCalls(t.log) && LogResults(t.log) + [] == LogResults(t.log);
    } else {
      var front, last := calls[..|calls| - 1], calls[|calls| - 1];
      AfterRejecting(env, want, t, i, front);
      OneMoreRejection(env, want, t, i, front, last);
      assert calls == front + [last];
    }
  }

  lemma OneMoreRejection(env: Env, want: Want, t: Turn, i: nat, front: seq<ToolCall>, last: ToolCall)
    requires var t1 := t.(log := t.log + Rejections(front));
             && Coherent(env, want, t1) && Counted(t1, i, false)
             && LogCalls(t1.log) == LogCalls(t.log) + front
             && LogResults(t1.log) == LogResults(t.log) + Refusals(front)
    ensures var t' := t.(log := t.log + Rejections(front + [last]));
            && Coherent(env, want, t') && Counted(t', i, false)
            && LogCalls(t'.log) == LogCalls(t.log) + (front + [last])
            && LogResults(t'.log) == LogResults(t.log) + Refusals(front + [last])
  {
    hide Coherent, Count, LogCalls, LogResults, Refusal, Rejections, Refusals, LastIs;
    var t1 := t.(log := t.log + Rejections(front));
    PlainEvent(env, want, t1, Rejected(last));
    RejectionsSnoc(front, last);
    assert t.log + Rejections(front + [last]) == t1.log + [Rejected(last)];
  }

  lemma RejectionsSnoc(front: seq<ToolCall>, last: ToolCall)
    ensures Rejections(front + [last]) == Rejections(front) + [Rejected(last)]
    ensures Refusals(front + [last]) == Refusals(front) + ResultOf(Rejected(last))
  {
    assert (front + [last])[..|front|] == front;
  }

  lemma RejectOk(env: Env, want: Want, t: Turn, i: nat, calls: seq<ToolCall>)
    requires AtHead(env, want, t, i, false)
    ensures AtHead(env, want, Reject(t, calls), i, false)
  {
    hide Coherent, Counted, LogCalls, LogResults, AllPaired, FlatCalls, FlatResults, Paired, Rejections, Refusals;
    AfterRejecting(env, want, t, i, calls);
    RefusalsPaired(calls);
    ShownAppend(t, Reject(t, calls), Exchange(calls, Refusals(calls)));
    SameHistory(env, want, t.(log := t.log + Rejections(calls)), Reject(t, calls), i);
  }

  /** Storing an exchange changes nothing that is read off the history. */
  lemma SameHistory(env: Env, want: Want, t: Turn, t': Turn, i: nat)
    requires Coherent(env, want, t) && Counted(t, i, false) && t' == t.(exchanges := t'.exchanges)
    ensures Coherent(env, want, t') && Counted(t', i, false)
  {
  }

  // ---------- the loop ----------

  /** The bookkeeping at the head of iteration `i`: one answer per finished iteration, at most one
      compression for each of them and one for the current one. */
  ghost predicate Counted(t: Turn, i: nat, compressed: bool) {
    && Count(t.log, IsReplied) == i
    && Count(t.log, IsCompacted) <= i + (if compressed then 1 else 0)
    && Count(t.log, IsAsked) == t.asked == i + Count(t.log, IsCompacted)
  }

  ghost predicate AtHead(env: Env, want: Want, t: Turn, i: nat, compressed: bool) {
    Coherent(env, want, t) && Shown(t) && Counted(t, i, compressed)
  }

  /** Whatever the model answers: at most two main calls an iteration and one compression. */
  ghost predicate Bounded(t: Turn) {
    && Count(t.log, IsAsked) <= 2 * MAX_ITERATIONS
    && Count(t.log, IsCompacted) <= MAX_ITERATIONS
    && Count(t.log, IsReplied) <= MAX_ITERATIONS
  }

  predicate HasRejection(log: Log) {
    exists k | 0 <= k < |log| :: log[k].Rejected?
  }

  /** Why a turn may end the way it does. */
  ghost predicate Explained(env: Env, world: World, want: Want, t: Turn, out: Outcome) {
    match out
    case Final(text) =>
      // the model's own text, and every demand of the message was met in this turn
      && LastIs(t, Replied([])) && t.asked > 0
      && world.answers(t.asked - 1) == Reply(t.content, []) && text == world.hook(t.content)
      && (want.required != "" ==> SucceededIn(t.log, want.required))
      && (want.mcp != "" ==> Met(env, want.mcp, t.exchanges))
      && Quiet(env, t.log) && Shown(t)
    case Fixed(text, NoEvidence) =>
      && want.mcp != "" && !Met(env, want.mcp, t.exchanges) && text == env.message("MCPNoVerifiedOperation")
      && Quiet(env, t.log) && Shown(t)
    case Fixed(_, Combined) =>
      (exists calls :: LastIs(t, Replied(calls)) && BadBatch(env, calls)) && HasRejection(t.log)
    case Error(RequiredMissing) => want.required != "" && !SucceededIn(t.log, want.required)
    case Error(ProviderFailed) =>
      // the provider failed, or the context was still too large right after a compression
      && LastIs(t, Asked) && t.asked > 0
      && (|| world.answers(t.asked - 1).ProviderError?
          || (world.answers(t.asked - 1).Overflow? && |t.log| > 1 && t.log[|t.log| - 2] == Compacted))
    case Error(TooLong) =>
      && Count(t.log, IsReplied) == MAX_ITERATIONS
      && (want.required != "" ==> SucceededIn(t.log, want.required))
      && (want.mcp != "" ==> Met(env, want.mcp, t.exchanges))
    case Error(NotSaved) => !world.saved
    case _ => Ends(env, want, t, out)
  }

  /** Between the main call and its answer. */
  ghost predicate Waiting(env: Env, want: Want, t: Turn, i: nat, compressed: bool) {
    && Coherent(env, want, t) && Shown(t) && LastIs(t, Asked)
    && Count(t.log, IsReplied) == i
    && Count(t.log, IsCompacted) <= i + (if compressed then 1 else 0)
    && Count(t.log, IsAsked) == t.asked == i + Count(t.log, IsCompacted) + 1
  }

  /** An event that is no tool step leaves a turn coherent. */
  lemma PlainEvent(env: Env, want: Want, t: Turn, e: Event)
    requires Coherent(env, want, t) && !ToolStep(e)
    requires e.Compacted? || e.Replied? ==> LastIs(t, Asked)
    ensures Coherent(env, want, t.(log := t.log + [e]))
    ensures LogCalls(t.log + [e]) == LogCalls(t.log) + CallOf(e)
    ensures LogResults(t.log + [e]) == LogResults(t.log) + ResultOf(e)
    ensures Count(t.log + [e], IsReplied) == Count(t.log, IsReplied) + if e.Replied? then 1 else 0
    ensures Count(t.log + [e], IsCompacted) == Count(t.log, IsCompacted) + if e.Compacted? then 1 else 0
    ensures Count(t.log + [e], IsAsked) == Count(t.log, IsAsked) + if e.Asked? then 1 else 0
  {
    hide Boundary, Judge;
    assert EventOk(env, t.log, e);
    Extend(env, t.log, e);
  }

  lemma AfterAsking(env: Env, want: Want, t: Turn, i: nat, compressed: bool)
    requires AtHead(env, want, t, i, compressed)
    ensures Waiting(env, want, AskModel(t), i, compressed)
  {
    hide LogOk, Quiet, Tainted, SucceededIn, Count, LogCalls, LogResults, Shown;
    PlainEvent(env, want, t, Asked);
    QuietStep(t, Asked);
    ShownLater(t, AskModel(t));
  }

  lemma AfterCompacting(env: Env, want: Want, t: Turn, i: nat)
    requires Waiting(env, want, t, i, false)
    ensures AtHead(env, want, t.(log := t.log + [Compacted]), i, true)
  {
    hide LogOk, Quiet, Tainted, SucceededIn, Count, LogCalls, LogResults, Shown;
    PlainEvent(env, want, t, Compacted);
    QuietStep(t, Compacted);
    ShownLater(t, t.(log := t.log + [Compacted]));
  }

  lemma AfterReply(env: Env, want: Want, t: Turn, i: nat, compressed: bool, a: Answer)
    requires Waiting(env, want, t, i, compressed) && a.Reply?
    ensures AtHead(env, want, Answered(t, a), i + 1, false) && LastIs(Answered(t, a), Replied(a.calls))
  {
    hide LogOk, Quiet, Tainted, SucceededIn, Count, LogCalls, LogResults, Shown;
    PlainEvent(env, want, t, Replied(a.calls));
    QuietStep(t, Replied(a.calls));
    ShownLater(t, Answered(t, a));
  }

  /** The answerless events show nothing. */
  lemma QuietStep(t: Turn, e: Event)
    requires CallOf(e) == [] && ResultOf(e) == []
    ensures LogCalls(t.log) + CallOf(e) == LogCalls(t.log)
    ensures LogResults(t.log) + ResultOf(e) == LogResults(t.log)
    ensures (t.log + [e])[..|t.log|] == t.log
  {
  }

  /** A batch of tool steps keeps the counts. */
  lemma AfterBatch(t0: Turn, t: Turn, i: nat)
    requires Counted(t0, i, false) && ToolSteps(t0.log, t.log) && t.asked == t0.asked
    ensures Counted(t, i, false)
  {
    ToolStepsCount(t0.log, t.log, IsReplied);
    ToolStepsCount(t0.log, t.log, IsCompacted);
    ToolStepsCount(t0.log, t.log, IsAsked);
  }

  lemma RejectedOnce(log: Log, calls: seq<ToolCall>)
    requires calls != []
    ensures HasRejection(log + Rejections(calls))
  {
    RejectionsAre(calls);
    assert (log + Rejections(calls))[|log|] == Rejected(calls[0]);
  }

  lemma KeepsRejection(before: Log, log: Log)
    requires ToolSteps(before, log)
    ensures HasRejection(before) ==> HasRejection(log)
  {
    if HasRejection(before) {
      var k :| 0 <= k < |before| && before[k].Rejected?;
      assert log[..|before|][k] == log[k];
    }
  }

  lemma KeepsRejectionPlain(log: Log, e: Event)
    ensures HasRejection(log) ==> HasRejection(log + [e])
  {
    if HasRejection(log) {
      var k :| 0 <= k < |log| && log[k].Rejected?;
      assert (log + [e])[k] == log[k];
    }
  }

  lemma ConcludeOk(env: Env, world: World, want: Want, t: Turn, i: nat, replanned: bool)
    requires AtHead(env, want, t, i + 1, false) && LastIs(t, Replied([]))
    requires t.asked > 0 && world.answers(t.asked - 1) == Reply(t.content, [])
    ensures var end := Conclude(env, world, want, t, i, replanned);
            end.Some? ==> Explained(env, world, want, t, end.value) && Honest(world, end.value)
  {
    hide LogOk, Quiet, Shown, Met;
  }

  lemma EndExplained(env: Env, world: World, want: Want, t: Turn, out: Outcome)
    requires Ends(env, want, t, out) && Honest(world, out)
    ensures Explained(env, world, want, t, out)
  {
    var before, call :| EndsHere(env, want, before, t, call, out);
  }

  lemma IterateOk(env: Env, world: World, want: Want, t: Turn, calls: seq<ToolCall>, i: nat, replanned: bool,
                  rejected: bool)
    requires AtHead(env, want, t, i + 1, false) && LastIs(t, Replied(calls))
    requires t.asked > 0 && world.answers(t.asked - 1) == Reply(t.content, calls)
    requires rejected ==> HasRejection(t.log)
    ensures var r := Iterate(env, world, want, t, calls, i, replanned, rejected);
      && LogOk(env, r.t.log) && Counted(r.t, i + 1, false) && AllPaired(r.t.exchanges)
      && (r.end.None? ==> AtHead(env, want, r.t, i + 1, false) && (r.rejected ==> HasRejection(r.t.log)))
      && (r.end.Some? ==> Explained(env, world, want, r.t, r.end.value) && Honest(world, r.end.value))
  {
    hide LogOk, Quiet, Counted, Tainted, Shown, Met, EndsHere, SucceededIn, ToolSteps, Batch, HasTerminal,
         Reject, Conclude, Honest;
    ShownPaired(t);
    if calls == [] {
      ConcludeOk(env, world, want, t, i, replanned);
    } else if BadBatch(env, calls) {
      if rejected {
        CombinedHonest(env, world);
      } else {
        RejectOk(env, want, t, i + 1, calls);
        ShownPaired(Reject(t, calls));
        RejectedOnce(t.log, calls);
        RejectLog(t, calls);
      }
    } else {
      StartBatch(env, want, t, calls);
      BatchOk(env, world, want, t, t, calls, 0, []);
      var b := Batch(env, world, want, t, calls, 0, []);
      AfterBatch(t, b.t, i + 1);
      if b.end.Some? {
        EndExplained(env, world, want, b.t, b.end.value);
      } else {
        KeepsRejection(t.log, b.t.log);
        ShownPaired(b.t);
      }
    }
  }

  lemma ShownPaired(t: Turn)
    requires Shown(t)
    ensures AllPaired(t.exchanges)
  {
  }

  lemma RejectLog(t: Turn, calls: seq<ToolCall>)
    ensures Reject(t, calls).log == t.log + Rejections(calls)
  {
  }

  lemma CombinedHonest(env: Env, world: World)
    ensures Honest(world, FinishFixed(world, env.message("TranslationCombined"), Combined))
  {
  }

  lemma StartBatch(env: Env, want: Want, t: Turn, calls: seq<ToolCall>)
    requires Coherent(env, want, t)
    ensures MidBatch(env, want, t, t, calls, 0, [])
  {
    assert LogCalls(t.log) + calls[..0] == LogCalls(t.log);
  }

  lemma HeadBounded(t: Turn, i: nat)
    requires Counted(t, i, false) && i <= MAX_ITERATIONS
    ensures Bounded(t)
  {
  }

  /** What a finished turn guarantees: its history obeys the rules, its calls are bounded, every stored
      exchange has one result per call, in order and under its id, and its outcome is explained. */
  ghost predicate Justified(env: Env, world: World, want: Want, r: Ended) {
    && LogOk(env, r.t.log) && Bounded(r.t) && AllPaired(r.t.exchanges)
    && Explained(env, world, want, r.t, r.out) && Honest(world, r.out)
  }

  lemma FailureOk(env: Env, world: World, want: Want, t: Turn, i: nat, compressed: bool)
    requires Waiting(env, want, t, i, compressed) && i < MAX_ITERATIONS
    requires t.asked > 0 && !world.answers(t.asked - 1).Reply? && (world.answers(t.asked - 1).Overflow? ==> compressed)
    requires compressed ==> |t.log| > 1 && t.log[|t.log| - 2] == Compacted
    ensures Justified(env, world, want, Ended(Error(ProviderFailed), t))
  {
    ShownPaired(t);
    hide LogOk, Quiet, Shown, AllPaired;
  }

  lemma GiveUpOk(env: Env, world: World, want: Want, t: Turn)
    requires AtHead(env, want, t, MAX_ITERATIONS, false)
    ensures Justified(env, world, want, Ended(GiveUp(env, world, want, t), t))
  {
    ShownPaired(t);
    hide LogOk, Quiet, Shown, Met, AllPaired;
  }

  lemma EndOk(env: Env, world: World, want: Want, t: Turn, i: nat, out: Outcome)
    requires LogOk(env, t.log) && Counted(t, i, false) && i <= MAX_ITERATIONS && AllPaired(t.exchanges)
    requires Explained(env, world, want, t, out) && Honest(world, out)
    ensures Justified(env, world, want, Ended(out, t))
  {
    hide LogOk, AllPaired, Explained, Honest;
    HeadBounded(t, i);
  }

  lemma {:induction false} LoopOk(env: Env, world: World, want: Want, t: Turn, i: nat, compressed: bool,
                                  replanned: bool, rejected: bool)
    requires i <= MAX_ITERATIONS && (compressed ==> i < MAX_ITERATIONS)
    requires AtHead(env, want, t, i, compressed) && (rejected ==> HasRejection(t.log))
    requires compressed ==> LastIs(t, Compacted)
    ensures Justified(env, world, want, Loop(env, world, want, t, i, compressed, replanned, rejected))
    decreases MAX_ITERATIONS - i, !compressed
  {
    hide AtHead, Waiting, Explained, LogOk, Counted, HasRejection, Iterate, GiveUp, LastIs, Justified, AllPaired,
         Honest;
    if i == MAX_ITERATIONS {
      GiveUpOk(env, world, want, t);
    } else {
      AfterAsking(env, want, t, i, compressed);
      KeepsRejectionPlain(t.log, Asked);
      var a := world.answers(t.asked);
      var asked := AskModel(t);
      if a.Overflow? && !compressed {
        AfterCompacting(env, want, asked, i);
        KeepsRejectionPlain(asked.log, Compacted);
        LastOne(asked, Compacted);
        LoopOk(env, world, want, asked.(log := asked.log + [Compacted]), i, true, replanned, rejected);
      } else if !a.Reply? {
        AskedAfter(t, Compacted);
        FailureOk(env, world, want, asked, i, compressed);
      } else {
        AfterReply(env, want, asked, i, compressed, a);
        KeepsRejectionPlain(asked.log, Replied(a.calls));
        var t1 := Answered(asked, a);
        IterateOk(env, world, want, t1, a.calls, i, replanned, rejected);
        var r := Iterate(env, world, want, t1, a.calls, i, replanned, rejected);
        if r.end.Some? {
          EndOk(env, world, want, r.t, i + 1, r.end.value);
        } else {
          LoopOk(env, world, want, r.t, i + 1, false, r.replanned, r.rejected);
        }
      }
    }
  }

  lemma LastOne(t: Turn, e: Event)
    ensures LastIs(t.(log := t.log + [e]), e)
  {
  }

  lemma AskedAfter(t: Turn, e: Event)
    ensures LastIs(t, e) ==> |AskModel(t).log| > 1 && AskModel(t).log[|AskModel(t).log| - 2] == e
  {
  }

  lemma NothingYet(env: Env, want: Want)
    ensures AtHead(env, want, START, 0, false)
  {
  }

  /** The main theorem on one turn: whatever the model answers and whatever the skills do, and despite the
      repeated iterations, the turn is justified by what happened in it. */
  lemma EveryTurn(env: Env, world: World, want: Want)
    ensures Justified(env, world, want, Play(env, world, want))
  {
    hide Justified;
    NothingYet(env, want);
    LoopOk(env, world, want, START, 0, false, false, false);
  }
}
