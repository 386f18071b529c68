/** What a final answer proves about the tools that ran (internal/assistant/assistant.go,
    internal/assistant/mcp_grounding.go).

    The evidence gate looks at the exchanges, matches calls and results by id, and a repeated call is
    answered from the ledger with IsError = false even when the remembered attempt failed.  So which
    requirements are backed by a real execution depends on the outcome boundary, on the dispatchers
    opting out of the ledger, and on the provider giving the calls of an answer ids of their own. */
module Evidence {
  import opened Options
  import opened Tools
  import opened McpEvidence
  import opened Ledger
  import opened TurnLog
  import opened TurnSpec
  import opened TurnProofs

  /** Results of the assistant itself are errors or pending: success means that the body ran. */
  lemma SuccessRan(env: Env, log: Log, k: nat, name: string)
    requires LogOk(env, log) && k < |log| && Succeeds(log[k], name)
    ensures log[k].ran
  {
    assert EventOk(env, log[..k], log[k]);
  }

  /** A final text after a forced tool: that tool's body ran in this turn without an error. */
  lemma RequiredToolRan(env: Env, world: World, want: Want)
    requires want.required != "" && Play(env, world, want).out.Final?
    ensures var log := Play(env, world, want).t.log;
            exists k | 0 <= k < |log| :: Succeeds(log[k], want.required) && log[k].ran
  {
    hide Play;
    EveryTurn(env, world, want);
    var log := Play(env, world, want).t.log;
    var k :| 0 <= k < |log| && Succeeds(log[k], want.required);
    SuccessRan(env, log, k, want.required);
  }

  /** The requirements whose tools the outcome boundary watches. */
  predicate Guarded(required: string) {
    Invocation(required) || required == ACTION
  }

  /** The dispatchers a message can ask for by name (mcp_grounding.go, line 87). */
  predicate Dispatcher(name: string) {
    || Guarded(name)
    || name in {"mcp_search_tools", "mcp_describe_tool", "mcp_connections", "mcp_resources", "mcp_prompts"}
    || name in {"mcp_execution_status", "mcp_setup_link", "mcp_connection_draft", "mcp_cancel"}
  }

  predicate Generic(required: string) { required == "metadata" || required == "invocation" }

  predicate HasConnections(env: Env) { "mcp_connections" in env.usable }

  /** The requirements a message can have: none without the connections tool, and a dispatcher only if it
      can be used, or if a connection is to be changed. */
  predicate Demandable(env: Env, required: string) {
    && HasConnections(env)
    && (Generic(required) || required == ACTION || (Dispatcher(required) && required in env.usable))
  }

  /** The registry as it is set up: skills are registered before they are usable, and the dispatchers opt
      out of the ledger (internal/skill/mcp/skill.go, lines 119-120). */
  ghost predicate Registry(env: Env) {
    env.Speaks() && env.usable <= env.registered && OptedOut(env)
  }

  ghost predicate OptedOut(env: Env) {
    forall name | name in env.usable && Dispatcher(name) :: name in env.separate
  }

  /** The calls of an answer have ids of their own. */
  predicate Distinct(calls: seq<ToolCall>) {
    forall i, j | 0 <= i < j < |calls| :: calls[i].id != calls[j].id
  }

  ghost predicate DistinctIds(world: World) {
    forall n: nat :: world.answers(n).Reply? ==> Distinct(world.answers(n).calls)
  }

  /** The event is a body that ran for this requirement and succeeded; an invocation also said what
      it did. */
  ghost predicate RealEvidence(env: Env, required: string, e: Event) {
    && e.Attempted? && e.ran && !e.result.isError && !e.result.pending
    && (e.call.name == required || (required == "metadata" && HasPrefix(e.call.name, "mcp_"))
        || (required == "invocation" && Invocation(e.call.name)))
    && (Invocation(required) ==> Succeeded(env.execution(e.result.content)))
  }

  ghost predicate Backed(env: Env, world: World, want: Want) {
    var r := Play(env, world, want);
    r.out.Final? ==> exists k | 0 <= k < |r.t.log| :: RealEvidence(env, want.mcp, r.t.log[k])
  }

  /** In a quiet history a watched tool that was tried has really succeeded. */
  lemma TriedIsReal(env: Env, log: Log, call: ToolCall, result: ToolResult) returns (k: nat)
    requires env.Speaks() && LogOk(env, log) && Quiet(env, log) && Tried(log, call, result) && Guarded(call.name)
    ensures k < |log| && RealEvidence(env, call.name, log[k])
  {
    hide Boundary, Judge;
    k :| 0 <= k < |log| && ToolStep(log[k]) && log[k].call == call && ResultOf(log[k]) == [result];
    if log[k].Replayed? {
      k := ReplaysTheAttempt(env, log, k);
    }
    assert LetsGoOn(env, log[k]);
    BoundarySilent(env, call.name, log[k].result);
    SuccessRan(env, log, k, call.name);
  }

  /** A refused exchange satisfies nothing. */
  lemma {:induction false} RefusalsAreErrors(calls: seq<ToolCall>)
    ensures |Refusals(calls)| == |calls| && forall k | 0 <= k < |calls| :: Refusals(calls)[k].isError
  {
    if calls != [] {
      RefusalsAreErrors(calls[..|calls| - 1]);
    }
  }

  lemma WatchedByName(env: Env, required: string, call: ToolCall, result: ToolResult)
    requires Guarded(required) && Satisfies(env, required, call, result)
    ensures call.name == required && !result.isError
  {
  }

  lemma MetInExchange(env: Env, required: string, log: Log, ex: Exchange) returns (call: ToolCall, result: ToolResult)
    requires Guarded(required) && MetIn(env, required, ex) && Grounded(log, ex) && Paired(ex.calls, ex.results)
    ensures Tried(log, call, result) && call.name == required
  {
    hide Satisfies, Guarded, Tried;
    var c, m :| 0 <= c < |ex.calls| && 0 <= m < |ex.results| && Satisfies(env, required, ex.calls[c], ex.results[m]);
    WatchedByName(env, required, ex.calls[c], ex.results[m]);
    RefusalsAreErrors(ex.calls);
    call, result := ex.calls[c], ex.results[c];
  }

  /** With a watched requirement, a final text is backed by a real execution. */
  lemma WatchedIsBacked(env: Env, world: World, want: Want)
    requires env.Speaks() && Guarded(want.mcp)
    ensures Backed(env, world, want)
  {
    hide Play, RealEvidence, Grounded, Tried, LogOk, Quiet, MetIn, Paired, FlatCalls, FlatResults, LogCalls, LogResults;
    GuardedIsSomething(want.mcp);
    EveryTurn(env, world, want);
    var r := Play(env, world, want);
    hide Guarded;
    if r.out.Final? {
      var x :| 0 <= x < |r.t.exchanges| && MetIn(env, want.mcp, r.t.exchanges[x]);
      var ex := r.t.exchanges[x];
      var call, result := MetInExchange(env, want.mcp, r.t.log, ex);
      var k := TriedIsReal(env, r.t.log, call, result);
    }
  }

  lemma GuardedIsSomething(required: string)
    requires Guarded(required)
    ensures required != ""
  {
  }

  // ---------- the other dispatchers, when ids are distinct ----------

  /** The calls of every stored exchange are those of some answer. */
  ghost predicate FromAnswers(world: World, exchanges: seq<Exchange>) {
    forall x | 0 <= x < |exchanges| :: IsAnswer(world, exchanges[x].calls)
  }

  ghost predicate IsAnswer(world: World, calls: seq<ToolCall>) {
    exists n: nat :: world.answers(n).Reply? && world.answers(n).calls == calls
  }

  lemma {:induction false} BatchStores(env: Env, world: World, want: Want, t: Turn, calls: seq<ToolCall>, k: nat,
                                       results: seq<ToolResult>)
    requires k <= |calls| && FromAnswers(world, t.exchanges) && IsAnswer(world, calls)
    ensures FromAnswers(world, Batch(env, world, want, t, calls, k, results).t.exchanges)
    decreases |calls| - k
  {
    hide IsAnswer, AttemptOf, Boundary, Find, Entries;
    if k < |calls| {
      var c := Call(env, world, want, t, calls[k]);
      assert c.t.exchanges == t.exchanges;
      if c.end.None? {
        BatchStores(env, world, want, c.t, calls, k + 1, results + [c.result]);
      }
    }
  }

  lemma {:induction false} LoopStores(env: Env, world: World, want: Want, t: Turn, i: nat, compressed: bool,
                                      replanned: bool, rejected: bool)
    requires i <= MAX_ITERATIONS && FromAnswers(world, t.exchanges)
    ensures FromAnswers(world, Loop(env, world, want, t, i, compressed, replanned, rejected).t.exchanges)
    decreases MAX_ITERATIONS - i, !compressed
  {
    hide IsAnswer, Batch, Conclude, GiveUp, BadBatch;
    if i < MAX_ITERATIONS {
      var a := world.answers(t.asked);
      var asked := AskModel(t);
      if a.Overflow? && !compressed {
        LoopStores(env, world, want, asked.(log := asked.log + [Compacted]), i, true, replanned, rejected);
      } else if a.Reply? {
        AnswerIs(world, t.asked);
        BatchStores(env, world, want, Answered(asked, a), a.calls, 0, []);
        var r := Iterate(env, world, want, Answered(asked, a), a.calls, i, replanned, rejected);
        if r.end.None? {
          LoopStores(env, world, want, r.t, i + 1, false, r.replanned, r.rejected);
        }
      }
    }
  }

  lemma AnswerIs(world: World, n: nat)
    requires world.answers(n).Reply?
    ensures IsAnswer(world, world.answers(n).calls)
  {
  }

  /** With distinct ids a result belongs to the call at its own place. */
  lemma OwnResult(env: Env, required: string, ex: Exchange) returns (c: nat)
    requires !Generic(required) && MetIn(env, required, ex) && Paired(ex.calls, ex.results) && Distinct(ex.calls)
    ensures c < |ex.calls| && ex.calls[c].name == required
    ensures !ex.results[c].isError && !ex.results[c].pending
  {
    var a, m :| 0 <= a < |ex.calls| && 0 <= m < |ex.results| && Satisfies(env, required, ex.calls[a], ex.results[m]);
    assert ex.calls[m].id == ex.calls[a].id;
    c := m;
  }

  /** A dispatcher that opts out of the ledger is never replayed: a result of it without an error comes from
      a body that ran. */
  lemma NotReplayed(env: Env, log: Log, call: ToolCall, result: ToolResult) returns (k: nat)
    requires LogOk(env, log) && Tried(log, call, result) && call.name in env.separate
    requires !result.isError && !result.pending && !Invocation(call.name)
    ensures k < |log| && RealEvidence(env, call.name, log[k])
  {
    hide Invocation;
    k :| 0 <= k < |log| && ToolStep(log[k]) && log[k].call == call && ResultOf(log[k]) == [result];
    assert EventOk(env, log[..k], log[k]);
    SuccessRan(env, log, k, call.name);
  }

  lemma NamedEvidence(env: Env, log: Log, ex: Exchange, required: string) returns (k: nat)
    requires LogOk(env, log) && MetIn(env, required, ex) && Grounded(log, ex)
    requires Paired(ex.calls, ex.results) && Distinct(ex.calls)
    requires required in env.separate && !Generic(required) && !Invocation(required)
    ensures k < |log| && RealEvidence(env, required, log[k])
  {
    hide LogOk, MetIn, Grounded, Tried, Generic, Invocation, RealEvidence, Distinct;
    var c := OwnResult(env, required, ex);
    GroundedAt(log, ex, c);
    k := NotReplayed(env, log, ex.calls[c], ex.results[c]);
  }

  /** The exchange that met the requirement of a final text. */
  lemma MeetingExchange(env: Env, world: World, want: Want) returns (ex: Exchange)
    requires want.mcp != "" && Play(env, world, want).out.Final?
    ensures MetIn(env, want.mcp, ex) && Grounded(Play(env, world, want).t.log, ex)
    ensures Paired(ex.calls, ex.results) && IsAnswer(world, ex.calls)
  {
    EveryTurn(env, world, want);
    LoopStores(env, world, want, START, 0, false, false, false);
    PlayIsLoop(env, world, want);
    hide Play, Loop, Grounded, Paired, FlatCalls, FlatResults, LogCalls, LogResults, LogOk, Quiet, MetIn, IsAnswer;
    var r := Play(env, world, want);
    var x :| 0 <= x < |r.t.exchanges| && MetIn(env, want.mcp, r.t.exchanges[x]);
    ex := r.t.exchanges[x];
  }

  /** When the calls of an answer have ids of their own, every dispatcher asked for by name is backed. */
  lemma NamedIsBacked(env: Env, world: World, want: Want)
    requires Registry(env) && DistinctIds(world) && Dispatcher(want.mcp) && Demandable(env, want.mcp)
    ensures Backed(env, world, want)
  {
    if Guarded(want.mcp) {
      hide Play, Guarded, Dispatcher, Invocation, RealEvidence;
      WatchedIsBacked(env, world, want);
    } else if Play(env, world, want).out.Final? {
      NamesAreSomething(want.mcp);
      Separate(env, want.mcp);
      hide Play, Guarded, Dispatcher, Registry, Generic, Invocation, RealEvidence, Grounded, MetIn, Paired, LogOk,
           Distinct, Bounded, Explained, Honest, AllPaired;
      EveryTurn(env, world, want);
      var ex := MeetingExchange(env, world, want);
      var k := NamedEvidence(env, Play(env, world, want).t.log, ex, want.mcp);
    }
  }

  lemma PlayIsLoop(env: Env, world: World, want: Want)
    ensures Play(env, world, want) == Loop(env, world, want, START, 0, false, false, false)
  {
  }

  lemma Separate(env: Env, name: string)
    requires Registry(env) && Dispatcher(name) && name in env.usable
    ensures name in env.separate
  {
  }

  lemma NamesAreSomething(required: string)
    requires Dispatcher(required)
    ensures required != "" && !Generic(required)
    ensures !Guarded(required) ==> required != ACTION && !Invocation(required)
  {
  }

  lemma GroundedAt(log: Log, ex: Exchange, c: nat)
    requires Grounded(log, ex) && Paired(ex.calls, ex.results) && c < |ex.calls| && !ex.results[c].isError
    ensures Tried(log, ex.calls[c], ex.results[c])
  {
    RefusalsAreErrors(ex.calls);
  }
}
