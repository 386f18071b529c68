/** The history of one turn and the rules every turn's history obeys: what the loop, the ledger, the
    approval gate and the evidence gate of internal/assistant/assistant.go promise together. */
module TurnLog {
  import opened Options
  import opened Tools
  import opened McpEvidence
  import opened Ledger

  datatype Event =
    | Asked                        // the main model call
    | Compacted                    // history compressed after a context overflow
    | Replied(calls: seq<ToolCall>)
    | Rejected(call: ToolCall)     // refused with the rest of its batch
    | Attempted(call: ToolCall, result: ToolResult, ran: bool, taints: bool)
    | Replayed(call: ToolCall, content: string)  // answered from the ledger

  type Log = seq<Event>

  datatype Verdict = Blocked | NoChannel | Unknown | Ask | Execute

  /** The gates in front of a skill body, in the order they are tried. */
  function Judge(env: Env, tainted: bool, approved: bool, name: string): Verdict {
    if tainted && !RemoteAllowed(name) then Blocked
    else if env.Terminal(name) && !env.verbatim then NoChannel
    else if name !in env.usable then Unknown
    else if env.NeedsApproval(name) && !approved then Ask
    else Execute
  }

  /** An attempt whose outcome allows another step in the same turn. */
  predicate LetsGoOn(env: Env, e: Event) {
    e.Attempted? ==>
      !e.result.pending && !env.Terminal(e.call.name) && Boundary(env, e.call.name, e.result) == ""
  }

  ghost predicate Quiet(env: Env, log: Log) {
    forall k | 0 <= k < |log| :: LetsGoOn(env, log[k])
  }

  function EntryOf(env: Env, e: Event): seq<Entry> {
    if !e.Attempted? then []
    else
      var key := if e.call.name in env.separate then "" else e.call.key;
      [Entry(e.call.name, key, e.result.content, e.result.isError)]
  }

  /** What the ledger holds after this history. */
  function Entries(env: Env, log: Log): seq<Entry> {
    if log == [] then [] else Entries(env, log[..|log| - 1]) + EntryOf(env, log[|log| - 1])
  }

  predicate Taints(e: Event) {
    e.Attempted? && e.ran && e.taints
  }

  predicate Tainted(log: Log) {
    exists k | 0 <= k < |log| :: Taints(log[k])
  }

  predicate Succeeds(e: Event, name: string) {
    e.Attempted? && e.call.name == name && !e.result.isError && !e.result.pending
  }

  predicate SucceededIn(log: Log, name: string) {
    exists k | 0 <= k < |log| :: Succeeds(log[k], name)
  }

  /** The outcome of an attempt matches the gate that decided it. */
  ghost predicate Legit(env: Env, tainted: bool, approved: bool, e: Event)
    requires e.Attempted?
  {
    var verdict := Judge(env, tainted, approved, e.call.name);
    && e.result.callId == e.call.id
    && (e.ran <==> verdict == Execute)
    && (e.result.pending <==> verdict == Ask)
    && (verdict == Ask ==> !e.result.isError)
    && (verdict in {Blocked, NoChannel, Unknown} ==> e.result.isError)
    && (!e.ran ==> !e.taints)
  }

  ghost predicate EventOk(env: Env, log: Log, e: Event) {
    Quiet(env, log) &&
    match e
    case Asked => true
    case Compacted => log != [] && log[|log| - 1] == Asked
    case Replied(_) => log != [] && log[|log| - 1] == Asked
    case Rejected(call) => true
    case Attempted(call, _, _, _) =>
      && Legit(env, Tainted(log), false, e)
      && (call.name in env.separate || Find(Entries(env, log), call.name, call.key).None?)
      && (env.Terminal(call.name) ==> log != [] && log[|log| - 1] == Replied([call]))
    case Replayed(call, content) =>
      call.name !in env.separate && Find(Entries(env, log), call.name, call.key) == Some(content)
  }

  ghost predicate LogOk(env: Env, log: Log) {
    forall k | 0 <= k < |log| :: EventOk(env, log[..k], log[k])
  }

  // ---------- counting and flattening ----------

  function Count(log: Log, e: Event -> bool): nat {
    if log == [] then 0 else Count(log[..|log| - 1], e) + if e(log[|log| - 1]) then 1 else 0
  }

  predicate IsAsked(e: Event) { e.Asked? }
  predicate IsCompacted(e: Event) { e.Compacted? }
  predicate IsReplied(e: Event) { e.Replied? }

  function CallOf(e: Event): seq<ToolCall> {
    if e.Rejected? || e.Attempted? || e.Replayed? then [e.call] else []
  }

  /** The result the model is shown for one call. */
  function ResultOf(e: Event): seq<ToolResult> {
    match e
    case Rejected(call) => [Refusal(call)]
    case Attempted(_, result, _, _) => [result]
    case Replayed(call, content) => [ToolResult(call.id, content, false, false, false)]
    case _ => []
  }

  /** The code's longer text is abbreviated. */
  function Refusal(call: ToolCall): ToolResult {
    ToolResult(call.id, "error", true, false, false)
  }

  function LogCalls(log: Log): seq<ToolCall> {
    if log == [] then [] else LogCalls(log[..|log| - 1]) + CallOf(log[|log| - 1])
  }

  function LogResults(log: Log): seq<ToolResult> {
    if log == [] then [] else LogResults(log[..|log| - 1]) + ResultOf(log[|log| - 1])
  }

  lemma OkSnoc(env: Env, log: Log, e: Event)
    requires LogOk(env, log) && EventOk(env, log, e)
    ensures LogOk(env, log + [e])
  {
    hide EventOk;
    var all := log + [e];
    forall k | 0 <= k < |all| ensures EventOk(env, all[..k], all[k]) {
      if k < |log| {
        assert all[..k] == log[..k] && all[k] == log[k];
      } else {
        assert all[..k] == log;
      }
    }
  }

  lemma QuietSnoc(env: Env, log: Log, e: Event)
    requires Quiet(env, log)
    ensures Quiet(env, log + [e]) <==> LetsGoOn(env, e)
  {
    hide LetsGoOn;
    var all := log + [e];
    assert forall k | 0 <= k < |log| :: all[k] == log[k];
    if Quiet(env, all) { assert LetsGoOn(env, all[|log|]); }
  }

  lemma TaintedSnoc(log: Log, e: Event)
    ensures Tainted(log + [e]) <==> Tainted(log) || Taints(e)
  {
    hide Taints;
    var all := log + [e];
    assert forall k | 0 <= k < |log| :: all[k] == log[k];
    if Tainted(log) {
      var k :| 0 <= k < |log| && Taints(log[k]);
      assert Taints(all[k]);
    }
    if Taints(e) { assert Taints(all[|log|]); }
  }

  lemma SucceededSnoc(log: Log, e: Event, name: string)
    ensures SucceededIn(log + [e], name) <==> SucceededIn(log, name) || Succeeds(e, name)
  {
    hide Succeeds;
    var all := log + [e];
    assert forall k | 0 <= k < |log| :: all[k] == log[k];
    if SucceededIn(log, name) {
      var k :| 0 <= k < |log| && Succeeds(log[k], name);
      assert Succeeds(all[k], name);
    }
    if Succeeds(e, name) { assert Succeeds(all[|log|], name); }
  }

  /** The effect of one more event on everything that is read off a history. */
  lemma Extend(env: Env, log: Log, e: Event)
    requires LogOk(env, log) && EventOk(env, log, e)
    ensures LogOk(env, log + [e])
    ensures Entries(env, log + [e]) == Entries(env, log) + EntryOf(env, e)
    ensures Quiet(env, log + [e]) <==> LetsGoOn(env, e)
    ensures Tainted(log + [e]) <==> Tainted(log) || Taints(e)
    ensures forall name :: SucceededIn(log + [e], name) <==> SucceededIn(log, name) || Succeeds(e, name)
    ensures LogCalls(log + [e]) == LogCalls(log) + CallOf(e)
    ensures LogResults(log + [e]) == LogResults(log) + ResultOf(e)
    ensures forall p :: Count(log + [e], p) == Count(log, p) + if p(e) then 1 else 0
  {
    OkSnoc(env, log, e);
    QuietSnoc(env, log, e);
    TaintedSnoc(log, e);
    hide LogOk, EventOk, Quiet, LetsGoOn, Tainted, SucceededIn, Succeeds, EntryOf, CallOf, ResultOf;
    forall name ensures SucceededIn(log + [e], name) <==> SucceededIn(log, name) || Succeeds(e, name) {
      SucceededSnoc(log, e, name);
    }
    assert (log + [e])[..|log|] == log;
  }

  // ---------- what a history that obeys the rules guarantees ----------

  /** What the last event adds to a search of the ledger. */
  lemma FindLast(env: Env, log: Log, name: string, key: string)
    requires log != []
    ensures var front := Find(Entries(env, log[..|log| - 1]), name, key); var e := log[|log| - 1];
            Find(Entries(env, log), name, key) ==
            if front.Some? then front
            else if e.Attempted? && key != "" && EntryOf(env, e)[0].name == name && EntryOf(env, e)[0].key == key
            then Some(e.result.content) else None
  {
    var front, e := log[..|log| - 1], log[|log| - 1];
    if e.Attempted? {
      FindAppend(Entries(env, front), EntryOf(env, e)[0], name, key);
    } else {
      assert Entries(env, front) + [] == Entries(env, front);
    }
  }

  /** An attempt of a cacheable call is in the ledger from then on. */
  lemma {:induction false} Remembered(env: Env, log: Log, j: nat)
    requires j < |log| && log[j].Attempted?
    requires log[j].call.name !in env.separate && log[j].call.key != ""
    ensures Find(Entries(env, log), log[j].call.name, log[j].call.key).Some?
  {
    var front := log[..|log| - 1];
    if j < |front| {
      Remembered(env, front, j);
    }
    FindLast(env, log, log[j].call.name, log[j].call.key);
  }

  /** Operations whose repetitions are separate leave nothing that a later call could find. */
  lemma {:induction false} SeparateIsNeverFound(env: Env, log: Log, name: string, key: string)
    requires name in env.separate
    ensures Find(Entries(env, log), name, key).None?
  {
    if log != [] {
      SeparateIsNeverFound(env, log[..|log| - 1], name, key);
      FindLast(env, log, name, key);
    }
  }

  /** A cacheable call with a non-empty canonical input is attempted at most once in a turn. */
  lemma AttemptedOnce(env: Env, log: Log, j: nat, k: nat)
    requires LogOk(env, log) && j < k < |log| && log[j].Attempted? && log[k].Attempted?
    requires log[j].call.name !in env.separate && log[j].call.key != ""
    ensures log[k].call.name != log[j].call.name || log[k].call.key != log[j].call.key
  {
    assert EventOk(env, log[..k], log[k]);
    Remembered(env, log[..k], j);
  }

  ghost predicate SameCall(e: Event, call: ToolCall) {
    e.Attempted? && e.call.name == call.name && e.call.key == call.key
  }

  lemma {:induction false} FoundInHistory(env: Env, log: Log, call: ToolCall) returns (j: nat)
    requires call.name !in env.separate && Find(Entries(env, log), call.name, call.key).Some?
    ensures j < |log| && SameCall(log[j], call)
    ensures Find(Entries(env, log), call.name, call.key) == Some(log[j].result.content)
  {
    var n := |log| - 1;
    var front := log[..n];
    FindLast(env, log, call.name, call.key);
    if Find(Entries(env, front), call.name, call.key).Some? {
      j := FoundInHistory(env, front, call);
    } else {
      j := n;
    }
  }

  /** A replay returns the content of the one attempt of the same call, which precedes it; calls whose
      repetitions are separate operations are never replayed. */
  lemma ReplaysTheAttempt(env: Env, log: Log, k: nat) returns (j: nat)
    requires LogOk(env, log) && k < |log| && log[k].Replayed?
    ensures log[k].call.name !in env.separate && log[k].call.key != ""
    ensures j < k && SameCall(log[j], log[k].call) && log[k].content == log[j].result.content
    ensures forall i | 0 <= i < |log| && SameCall(log[i], log[k].call) :: i == j
  {
    var call := log[k].call;
    assert EventOk(env, log[..k], log[k]);
    j := FoundInHistory(env, log[..k], call);
    forall i | 0 <= i < |log| && SameCall(log[i], call) ensures i == j {
      if i < j {
        AttemptedOnce(env, log, i, j);
      } else if j < i {
        AttemptedOnce(env, log, j, i);
      }
    }
  }

  lemma QuietBefore(env: Env, log: Log, i: nat)
    requires LogOk(env, log) && i + 1 < |log|
    ensures LetsGoOn(env, log[i])
  {
    assert EventOk(env, log[..i + 1], log[i + 1]);
    assert log[..i + 1][i] == log[i];
  }

  /** After an attempt that is pending, terminal or stopped at the evidence boundary, nothing else
      happens in the turn: no model call, no tool, no replay. */
  lemma NothingFollows(env: Env, log: Log, k: nat)
    requires LogOk(env, log) && k < |log| && !LetsGoOn(env, log[k])
    ensures k == |log| - 1
  {
    forall i | 0 <= i < |log| - 1 ensures LetsGoOn(env, log[i]) {
      QuietBefore(env, log, i);
    }
  }

  /** A terminal tool is the only call of its batch, is attempted at most once, and is the last step. */
  lemma TerminalStandsAlone(env: Env, log: Log, k: nat)
    requires LogOk(env, log) && k < |log| && log[k].Attempted? && env.Terminal(log[k].call.name)
    ensures k == |log| - 1 && k > 0 && log[k - 1] == Replied([log[k].call])
    ensures forall i | 0 <= i < |log| && i != k && log[i].Attempted? :: !env.Terminal(log[i].call.name)
  {
    NothingFollows(env, log, k);
    assert EventOk(env, log[..k], log[k]);
    forall i | 0 <= i < |log| && i != k && log[i].Attempted? ensures !env.Terminal(log[i].call.name) {
      assert LetsGoOn(env, log[..k][i]);
    }
  }

  /** Once a body has brought in remote output, only the remote diagnostics set may run. */
  lemma TaintConfines(env: Env, log: Log, j: nat, k: nat)
    requires LogOk(env, log) && j < k < |log| && Taints(log[j]) && log[k].Attempted? && log[k].ran
    ensures RemoteAllowed(log[k].call.name)
  {
    assert EventOk(env, log[..k], log[k]);
    assert Taints(log[..k][j]);
  }

  /** In a turn a body never runs when the tool needs the user's consent. */
  lemma RunsOnlyUngated(env: Env, log: Log, k: nat)
    requires LogOk(env, log) && k < |log| && log[k].Attempted? && log[k].ran
    ensures log[k].call.name in env.usable && !env.NeedsApproval(log[k].call.name)
    ensures env.Terminal(log[k].call.name) ==> env.verbatim
  {
    assert EventOk(env, log[..k], log[k]);
  }
}
