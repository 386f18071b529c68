/** The tools of a sub-agent: what it is offered, and what runs when it calls
    (internal/agent/runner.go, lines 247-372). */
module AgentTools {
  import opened Tools

  /** A skill: kept to the main conversation, callable by a model at all, subject to approval. */
  datatype Skill = Skill(name: string, mainLoopOnly: bool, hasSchema: bool, gated: bool)

  type Registry = map<string, Skill>

  datatype BodyOutcome = Output(text: string) | Broken(error: string)

  predicate IsOrchestrate(name: string) { name == "orchestrate" }

  /** The allowlist in force: the one asked for, else the profile's; an empty one allows everything. */
  function Allowlist(asked: seq<string>, defaults: seq<string>): seq<string> {
    if asked == [] then defaults else asked
  }

  /** Whether a sub-agent may have a skill: sub-agents bypass approval, so never one that needs it. */
  predicate Offered(s: Skill, allowlist: seq<string>) {
    && !s.mainLoopOnly && s.hasSchema && !IsOrchestrate(s.name) && !s.gated
    && (allowlist == [] || s.name in allowlist)
  }

  function NamesOffered(enabled: seq<Skill>, allowlist: seq<string>): seq<string> {
    if enabled == [] then []
    else
      var before, s := NamesOffered(enabled[..|enabled| - 1], allowlist), enabled[|enabled| - 1];
      if Offered(s, allowlist) then before + [s.name] else before
  }

  /** Tools are offered in the order of the skills. */
  lemma {:induction false} NamesInOrder(a: seq<Skill>, b: seq<Skill>, allowlist: seq<string>)
    ensures NamesOffered(a + b, allowlist) == NamesOffered(a, allowlist) + NamesOffered(b, allowlist)
  {
    hide Offered;
    if b == [] {
      assert a + b == a;
    } else {
      var front, last := b[..|b| - 1], b[|b| - 1];
      NamesInOrder(a, front, allowlist);
      assert (a + b)[..|a + b| - 1] == a + front && (a + b)[|a + b| - 1] == last;
    }
  }

  method BuildTools(enabled: seq<Skill>, asked: seq<string>, defaults: seq<string>)
    returns (tools: seq<string>, allowed: set<string>)
    ensures tools == NamesOffered(enabled, Allowlist(asked, defaults))
    ensures forall n :: n in allowed <==> exists k | 0 <= k < |enabled| ::
              enabled[k].name == n && Offered(enabled[k], Allowlist(asked, defaults))
    ensures var allowlist := if asked != [] then asked else defaults;
            forall k | 0 <= k < |enabled| && !enabled[k].mainLoopOnly && enabled[k].hasSchema && !enabled[k].gated
                       && enabled[k].name != "orchestrate" && (allowlist == [] || enabled[k].name in allowlist) ::
              enabled[k].name in allowed
  {
    var allowlist := asked;
    if |allowlist| == 0 { allowlist := defaults; }
    tools, allowed := [], {};
    for i := 0 to |enabled|
      invariant tools == NamesOffered(enabled[..i], allowlist)
      invariant forall n :: n in allowed <==>
                  exists k | 0 <= k < i :: enabled[k].name == n && Offered(enabled[k], allowlist)
    {
      assert enabled[..i + 1][..i] == enabled[..i];
      var s := enabled[i];
      if s.mainLoopOnly { continue; }
      if !s.hasSchema { continue; }
      if IsOrchestrate(s.name) { continue; }
      if s.gated { continue; }
      if |allowlist| > 0 && s.name !in allowlist { continue; }
      allowed := allowed + {s.name};
      tools := tools + [s.name];
    }
    assert enabled[..|enabled|] == enabled;
  }

  /** Whether the body of a called tool runs. */
  predicate Runs(allowed: set<string>, registry: Registry, call: ToolCall) {
    call.name in allowed && call.name in registry && !registry[call.name].mainLoopOnly
  }

  /** The answer to a call: under its own id, an error unless the body ran and succeeded. */
  ghost predicate Answers(allowed: set<string>, registry: Registry, call: ToolCall, outcome: BodyOutcome,
                          r: ToolResult) {
    && r.callId == call.id
    && (r.isError <==> !Runs(allowed, registry, call) || outcome.Broken?)
    && (!r.isError ==> r.content == outcome.text)
  }

  method ExecuteTool(allowed: set<string>, registry: Registry, call: ToolCall, outcome: BodyOutcome)
    returns (r: ToolResult, ran: bool)
    ensures ran == Runs(allowed, registry, call) && Answers(allowed, registry, call, outcome, r)
  {
    if call.name !in allowed {
      var text := "error: tool " + call.name + " is not available to this agent";
      return ToolResult(call.id, text, true, false, false), false;
    }
    if call.name !in registry {
      return ToolResult(call.id, "error: unknown skill " + call.name, true, false, false), false;
    }
    if registry[call.name].mainLoopOnly {
      return ToolResult(call.id, "error: main conversation only", true, false, false), false;
    }
    match outcome
    case Broken(error) => return ToolResult(call.id, "error: " + error, true, false, false), true;
    case Output(text) => return ToolResult(call.id, text, false, false, false), true;
  }

  /** Every call of a round has its answer, in order. */
  ghost predicate AllAnswered(allowed: set<string>, registry: Registry, calls: seq<ToolCall>,
                              outcomes: nat -> BodyOutcome, results: seq<ToolResult>) {
    |results| == |calls| &&
    forall k | 0 <= k < |calls| :: Answers(allowed, registry, calls[k], outcomes(k), results[k])
  }

  method ExecuteTools(allowed: set<string>, registry: Registry, calls: seq<ToolCall>, outcomes: nat -> BodyOutcome)
    returns (results: seq<ToolResult>, ran: seq<bool>)
    ensures AllAnswered(allowed, registry, calls, outcomes, results)
    ensures |ran| == |calls| && forall k | 0 <= k < |calls| :: ran[k] == Runs(allowed, registry, calls[k])
  {
    hide Runs, Answers;
    results, ran := [], [];
    for k := 0 to |calls|
      invariant |results| == |ran| == k
      invariant forall m | 0 <= m < k :: Answers(allowed, registry, calls[m], outcomes(m), results[m])
      invariant forall m | 0 <= m < k :: ran[m] == Runs(allowed, registry, calls[m])
    {
      var r, b := ExecuteTool(allowed, registry, calls[k], outcomes(k));
      results, ran := results + [r], ran + [b];
    }
  }

  /** A sub-agent, which skips the approval flow, never runs a tool that needs approval, delegates again,
      or reaches a tool outside its allowlist, whatever name the model calls: as long as each enabled skill
      is still registered under its name. */
  lemma ApprovalIsNotBypassed(enabled: seq<Skill>, allowlist: seq<string>, allowed: set<string>, registry: Registry,
                              call: ToolCall)
    requires forall n :: n in allowed <==>
               exists k | 0 <= k < |enabled| :: enabled[k].name == n && Offered(enabled[k], allowlist)
    requires forall k | 0 <= k < |enabled| && enabled[k].name in registry :: registry[enabled[k].name] == enabled[k]
    ensures Runs(allowed, registry, call) ==>
              && !registry[call.name].gated && !registry[call.name].mainLoopOnly && !IsOrchestrate(call.name)
              && (allowlist == [] || call.name in allowlist)
  {
    hide IsOrchestrate;
  }
}
