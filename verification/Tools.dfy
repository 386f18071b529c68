/** Tool calls, their results, and what the assistant knows about a tool
    (internal/llm/llm.go, internal/assistant/assistant.go, internal/assistant/terminal.go). */
module Tools {
  import opened Options

  /** `key` is the canonical form of the call's input, the one the ledger compares. */
  datatype ToolCall = ToolCall(id: string, name: string, key: string)

  datatype ToolResult = ToolResult(callId: string, content: string, isError: bool, pending: bool, terminal: bool)

  datatype Exchange = Exchange(calls: seq<ToolCall>, results: seq<ToolResult>)

  datatype Level = Auto | Prompt | Manual

  /** The JSON reading of an invocation's content. */
  datatype Execution = Execution(id: string, state: string, text: string)

  /** The skill registry, the caller and the fixed texts, as they stand during one message. */
  datatype Env = Env(
    registered: set<string>,     // skills in the registry
    usable: set<string>,         // registered, enabled and available
    terminalSkills: set<string>, // skills that declare a terminal result
    prompts: set<string>,        // skills with approval level "prompt"
    manuals: set<string>,        // skills with approval level "manual"
    separate: set<string>,       // skills whose identical calls are separate operations
    verbatim: bool,              // the channel can deliver literal text
    admin: bool,                 // the caller's role
    execution: string -> Option<Execution>,  // content read as an execution, when it parses
    failureCode: string -> string,           // content read as a failure, "" when it has no code
    failureText: (string, string) -> string, // the content reported for a failed skill
    message: string -> string)               // localised fixed texts
  {
    predicate Terminal(name: string) {
      name in registered && name in terminalSkills
    }

    function LevelOf(name: string): Level {
      if name in manuals then Manual else if name in prompts then Prompt else Auto
    }

    /** Whether the body may run only after a reply that approves it. */
    predicate NeedsApproval(name: string) {
      LevelOf(name) == Prompt || (LevelOf(name) == Manual && !admin)
    }

    /** A reply from this caller is enough for a request stored with that level. */
    predicate CanApprove(level: Level) {
      level == Manual ==> admin
    }

    /** A missing translation yields its key, so fixed texts are never empty. */
    ghost predicate Speaks() {
      forall k :: message(k) != ""
    }
  }

  predicate HasPrefix(s: string, prefix: string) {
    |prefix| <= |s| && s[..|prefix|] == prefix
  }

  /** The tools that stay open once remote output has been read in the turn. */
  predicate RemoteAllowed(name: string) {
    name in {"remote_exec", "remote_chain", "remote_status", "remote_cancel", "datetime", "ask_user"}
  }

  predicate HasTerminal(env: Env, calls: seq<ToolCall>) {
    exists k | 0 <= k < |calls| :: env.Terminal(calls[k].name)
  }

  /** One result per call, in order, under the call's own id. */
  ghost predicate Paired(calls: seq<ToolCall>, results: seq<ToolResult>) {
    |results| == |calls| && forall k | 0 <= k < |calls| :: results[k].callId == calls[k].id
  }

  ghost predicate AllPaired(exchanges: seq<Exchange>) {
    forall k | 0 <= k < |exchanges| :: Paired(exchanges[k].calls, exchanges[k].results)
  }
}
