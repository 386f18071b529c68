/** The agentic loop of one message as a function of everything outside it: what the model answers and
    what skill bodies do (internal/assistant/assistant.go, lines 562-1042).  Both are adversaries: any
    answers, any errors, any results.  The methods of `Turn` compute this function. */
module TurnSpec {
  import opened Options
  import opened Tools
  import opened McpEvidence
  import opened Ledger
  import opened Approvals
  import opened TurnLog

  const MAX_ITERATIONS := 10

  datatype Answer =
    | Reply(content: string, calls: seq<ToolCall>)
    | Overflow       // the context is too large
    | ProviderError

  datatype SkillOutcome =
    | Output(text: string, taints: bool)
    | Broken(code: string, taints: bool)

  /** Everything outside the loop: answer `n` to main call `n`, outcome `n` of attempt `n`, the final
      hook, and whether the closing message can be stored. */
  datatype World = World(
    answers: nat -> Answer, skills: nat -> SkillOutcome, hook: string -> string, saved: bool)

  /** What the message demands: a tool that must succeed, and MCP evidence; "" for neither. */
  datatype Want = Want(required: string, mcp: string)

  datatype Turn = Turn(
    exchanges: seq<Exchange>, log: Log, asked: nat, attempts: nat,
    tainted: bool, requiredOk: bool, terminalAttempted: bool, content: string)

  const START := Turn([], [], 0, 0, false, false, false, "")

  datatype Reason =
    | NoEvidence | Combined | Repeated | AtBoundary | TerminalResult
    | RequiredMissing | ProviderFailed | TooLong | NotSaved

  datatype Outcome =
    | Final(text: string)                  // written by the model
    | Fixed(text: string, why: Reason)     // literal text of the program or of a terminal tool
    | Awaiting(text: string)               // the user is asked for consent
    | Error(why: Reason)

  // ---------- the function ----------

  /** What trying a call comes to. */
  function AttemptOf(env: Env, tainted: bool, approved: bool, call: ToolCall, outcome: SkillOutcome): (e: Event)
    ensures e.Attempted? && e.call == call
  {
    var terminal := env.Terminal(call.name);
    match Judge(env, tainted, approved, call.name)
    case Blocked => Attempted(call, ToolResult(call.id, "blocked", true, false, false), false, false)
    case NoChannel =>
      var content := env.message("TranslationChannelUnavailable");
      Attempted(call, ToolResult(call.id, content, true, false, true), false, false)
    case Unknown =>
      var content := if terminal then env.message("TranslationUnavailable") else "error: " + call.name;
      Attempted(call, ToolResult(call.id, content, true, false, terminal), false, false)
    case Ask => Attempted(call, ToolResult(call.id, env.message("ApprovalAwaiting"), false, true, false), false, false)
    case Execute =>
      match outcome
      case Output(text, taints) => Attempted(call, ToolResult(call.id, text, false, false, terminal), true, taints)
      case Broken(code, taints) =>
        Attempted(call, ToolResult(call.id, env.failureText(call.name, code), true, false, terminal), true, taints)
  }

  /** The turn after an attempt. */
  function Advance(env: Env, want: Want, t: Turn, e: Event): Turn
    requires e.Attempted?
  {
    t.(log := t.log + [e], attempts := t.attempts + 1, tainted := t.tainted || Taints(e),
       requiredOk := t.requiredOk || Succeeds(e, want.required),
       terminalAttempted := t.terminalAttempted || env.Terminal(e.call.name))
  }

  /** `finishResponse` for a literal text: it is returned only if it could be stored. */
  function FinishFixed(world: World, text: string, why: Reason): Outcome {
    if world.saved then Fixed(text, why) else Error(NotSaved)
  }

  /** Whether an attempt ends the turn, and how. */
  function EndOf(env: Env, world: World, e: Event): Option<Outcome>
    requires e.Attempted?
  {
    var response := Boundary(env, e.call.name, e.result);
    if response != "" then Some(FinishFixed(world, response, AtBoundary))
    else if env.Terminal(e.call.name) && !e.result.pending then
      Some(FinishFixed(world, e.result.content, TerminalResult))
    else if e.result.pending then Some(Awaiting(e.result.content))
    else None
  }

  datatype Called = Called(t: Turn, result: ToolResult, end: Option<Outcome>)

  /** One call of a batch: from the ledger, or through the gates. */
  function Call(env: Env, world: World, want: Want, t: Turn, call: ToolCall): Called {
    var cached := Find(Entries(env, t.log), call.name, call.key);
    if cached.Some? && call.name !in env.separate then
      Called(t.(log := t.log + [Replayed(call, cached.value)]),
             ToolResult(call.id, cached.value, false, false, false), None)
    else if env.Terminal(call.name) && want.required != "" && want.required != call.name && !t.requiredOk then
      Called(t, ToolResult(call.id, "", true, false, false), Some(Error(RequiredMissing)))
    else
      var e := AttemptOf(env, t.tainted, false, call, world.skills(t.attempts));
      Called(Advance(env, want, t, e), e.result, EndOf(env, world, e))
  }

  datatype Batched = Batched(t: Turn, end: Option<Outcome>)

  /** The calls of one answer from number `k` on, until one of them ends the turn. */
  function Batch(env: Env, world: World, want: Want, t: Turn, calls: seq<ToolCall>, k: nat,
                 results: seq<ToolResult>): Batched
    requires k <= |calls|
    decreases |calls| - k
  {
    if k == |calls| then Batched(t.(exchanges := t.exchanges + [Exchange(calls, results)]), None)
    else
      var c := Call(env, world, want, t, calls[k]);
      if c.end.Some? then Batched(c.t, c.end)
      else Batch(env, world, want, c.t, calls, k + 1, results + [c.result])
  }

  function Rejections(calls: seq<ToolCall>): Log {
    if calls == [] then [] else Rejections(calls[..|calls| - 1]) + [Rejected(calls[|calls| - 1])]
  }

  function Refusals(calls: seq<ToolCall>): seq<ToolResult> {
    if calls == [] then [] else Refusals(calls[..|calls| - 1]) + [Refusal(calls[|calls| - 1])]
  }

  /** A batch that mixes a terminal tool with other calls is refused as a whole: nothing runs. */
  function Reject(t: Turn, calls: seq<ToolCall>): Turn {
    t.(log := t.log + Rejections(calls), exchanges := t.exchanges + [Exchange(calls, Refusals(calls))])
  }

  predicate BadBatch(env: Env, calls: seq<ToolCall>) {
    HasTerminal(env, calls) && |calls| != 1
  }

  /** An answer without calls: `None` for one more try. */
  ghost function Conclude(env: Env, world: World, want: Want, t: Turn, i: nat, replanned: bool): Option<Outcome> {
    if want.mcp != "" && !Met(env, want.mcp, t.exchanges) then
      if !replanned && i + 1 < MAX_ITERATIONS then None
      else Some(FinishFixed(world, env.message("MCPNoVerifiedOperation"), NoEvidence))
    else if want.required != "" && !t.requiredOk then Some(Error(RequiredMissing))
    else Some(Final(world.hook(t.content)))
  }

  /** All iterations are used up. */
  ghost function GiveUp(env: Env, world: World, want: Want, t: Turn): Outcome {
    if want.mcp != "" && !Met(env, want.mcp, t.exchanges) then
      FinishFixed(world, env.message("MCPNoVerifiedOperation"), NoEvidence)
    else if want.required != "" && !t.requiredOk then Error(RequiredMissing)
    else Error(TooLong)
  }

  datatype Iterated = Iterated(t: Turn, end: Option<Outcome>, replanned: bool, rejected: bool)

  /** What one answer leads to. */
  ghost function Iterate(env: Env, world: World, want: Want, t: Turn, calls: seq<ToolCall>, i: nat,
                         replanned: bool, rejected: bool): Iterated {
    if calls == [] then Iterated(t, Conclude(env, world, want, t, i, replanned), true, rejected)
    else if BadBatch(env, calls) then
      if rejected then
        Iterated(t, Some(FinishFixed(world, env.message("TranslationCombined"), Combined)), replanned, rejected)
      else Iterated(Reject(t, calls), None, replanned, true)
    else
      var b := Batch(env, world, want, t, calls, 0, []);
      Iterated(b.t, b.end, replanned, rejected)
  }

  function AskModel(t: Turn): Turn {
    t.(log := t.log + [Asked], asked := t.asked + 1)
  }

  function Answered(t: Turn, a: Answer): Turn
    requires a.Reply?
  {
    t.(log := t.log + [Replied(a.calls)], content := a.content)
  }

  datatype Ended = Ended(out: Outcome, t: Turn)

  /** The loop from iteration `i`; a compression repeats the iteration once. */
  ghost function Loop(env: Env, world: World, want: Want, t: Turn, i: nat, compressed: bool,
                      replanned: bool, rejected: bool): Ended
    requires i <= MAX_ITERATIONS
    decreases MAX_ITERATIONS - i, !compressed
  {
    if i == MAX_ITERATIONS then Ended(GiveUp(env, world, want, t), t)
    else
      var a := world.answers(t.asked);
      var asked := AskModel(t);
      if a.Overflow? && !compressed then
        Loop(env, world, want, asked.(log := asked.log + [Compacted]), i, true, replanned, rejected)
      else if !a.Reply? then Ended(Error(ProviderFailed), asked)
      else
        var r := Iterate(env, world, want, Answered(asked, a), a.calls, i, replanned, rejected);
        if r.end.Some? then Ended(r.end.value, r.t)
        else Loop(env, world, want, r.t, i + 1, false, r.replanned, r.rejected)
  }

  ghost function Play(env: Env, world: World, want: Want): Ended {
    Loop(env, world, want, START, 0, false, false, false)
  }
}
