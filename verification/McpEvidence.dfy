/** Evidence that a remote operation happened in this turn (internal/assistant/mcp_grounding.go). */
module McpEvidence {
  import opened Options
  import opened Tools

  const ACTION := "mcp_connection_action"

  predicate Invocation(name: string) {
    name == "mcp_call_tool" || name == "mcp_read_resource" || name == "mcp_get_prompt"
  }

  /** What one call and one result say about the requirement. */
  predicate Satisfies(env: Env, required: string, call: ToolCall, result: ToolResult) {
    && result.callId == call.id && !result.isError && !result.pending
    && (|| (required == "metadata" && HasPrefix(call.name, "mcp_"))
        || call.name == required
        || (required == "invocation" && Invocation(call.name) && Succeeded(env.execution(result.content))))
  }

  predicate Succeeded(e: Option<Execution>) {
    e.Some? && e.value.id != "" && e.value.state == "succeeded"
  }

  ghost predicate Met(env: Env, required: string, exchanges: seq<Exchange>) {
    exists k | 0 <= k < |exchanges| :: MetIn(env, required, exchanges[k])
  }

  ghost predicate MetIn(env: Env, required: string, ex: Exchange) {
    exists c, r ::
      && 0 <= c < |ex.calls| && 0 <= r < |ex.results|
      && Satisfies(env, required, ex.calls[c], ex.results[r])
  }

  /** The three nested scans of the code decide `Met`. */
  method RequirementMet(env: Env, required: string, exchanges: seq<Exchange>) returns (met: bool)
    ensures met <==> Met(env, required, exchanges)
  {
    for k := 0 to |exchanges|
      invariant forall m | 0 <= m < k :: !MetIn(env, required, exchanges[m])
    {
      var ex := exchanges[k];
      for c := 0 to |ex.calls|
        invariant forall d, r | 0 <= d < c && 0 <= r < |ex.results| ::
                    !Satisfies(env, required, ex.calls[d], ex.results[r])
      {
        for r := 0 to |ex.results|
          invariant forall q | 0 <= q < r :: !Satisfies(env, required, ex.calls[c], ex.results[q])
        {
          if Satisfies(env, required, ex.calls[c], ex.results[r]) {
            return true;
          }
        }
      }
    }
    return false;
  }

  /** The fixed answer that ends the turn after an unsuccessful or unconfirmed operation; "" lets it
      go on. */
  function Boundary(env: Env, name: string, result: ToolResult): string {
    if !Invocation(name) && name != ACTION then ""
    else if result.isError then
      var read := env.failureCode(result.content);
      var code := if read == "" then "request_failed" else read;
      if code == "confirmation_expired" then env.message("MCPConfirmationExpired")
      else if code == "confirmation_rejected" then env.message("MCPConfirmationRejected")
      else if code == "confirmation_cancelled" then env.message("MCPConfirmationCancelled")
      else if code == "confirmation_required" || code == "confirmation_unavailable" then
        env.message("MCPConfirmationUnavailable")
      else env.message("MCPExecutionUnverified") + " (" + code + ")"
    else if name == ACTION then ""
    else match env.execution(result.content)
      case None => env.message("MCPExecutionUnverified")
      case Some(e) =>
        if e.state == "approval_pending" then env.message("MCPConfirmationUnavailable")
        else if e.id == "" || e.state != "succeeded" then
          env.message("MCPExecutionUnverified") + if e.id != "" then " " + e.id + " (" + e.state + ")" else ""
        else if e.text == "" then env.message("MCPPrivateExecution") + " " + e.id
        else ""
  }

  /** An invocation that does not end the turn succeeded, and said something. */
  lemma BoundarySilent(env: Env, name: string, result: ToolResult)
    requires env.Speaks() && (Invocation(name) || name == ACTION)
    ensures Boundary(env, name, result) == "" <==>
            !result.isError && (Invocation(name) ==>
              Succeeded(env.execution(result.content)) && env.execution(result.content).value.text != "")
  {
    assert env.message("MCPExecutionUnverified") != "" && env.message("MCPConfirmationUnavailable") != ""
        && env.message("MCPPrivateExecution") != "";
    assert env.message("MCPConfirmationExpired") != "" && env.message("MCPConfirmationRejected") != ""
        && env.message("MCPConfirmationCancelled") != "";
  }

  /** A failed operation is reported by its code. */
  lemma BoundaryTells(env: Env, name: string, result: ToolResult)
    requires (Invocation(name) || name == ACTION) && result.isError
    ensures var code, told := env.failureCode(result.content), Boundary(env, name, result);
            if code == "confirmation_expired" then told == env.message("MCPConfirmationExpired")
            else if code == "confirmation_rejected" then told == env.message("MCPConfirmationRejected")
            else if code == "confirmation_cancelled" then told == env.message("MCPConfirmationCancelled")
            else if code in {"confirmation_required", "confirmation_unavailable"} then
              told == env.message("MCPConfirmationUnavailable")
            else if code == "" then told == env.message("MCPExecutionUnverified") + " (" + "request_failed" + ")"
            else told == env.message("MCPExecutionUnverified") + " (" + code + ")"
  {
    hide Succeeded, Invocation;
    assert "request_failed"[0] == 'r' && "confirmation_expired"[0] == "confirmation_rejected"[0] == 'c'
        && "confirmation_cancelled"[0] == "confirmation_required"[0] == "confirmation_unavailable"[0] == 'c';
  }

  /** An invocation that did not fail and did not finish is reported as waiting for consent or unconfirmed. */
  lemma UnfinishedIsUnconfirmed(env: Env, name: string, result: ToolResult)
    requires Invocation(name) && !result.isError && !Succeeded(env.execution(result.content))
    ensures if env.execution(result.content).Some? && env.execution(result.content).value.state == "approval_pending"
            then Boundary(env, name, result) == env.message("MCPConfirmationUnavailable")
            else HasPrefix(Boundary(env, name, result), env.message("MCPExecutionUnverified"))
  {
  }

  /** Such a result is evidence in every list of exchanges that holds it. */
  lemma PassedBoundaryIsEvidence(env: Env, exchanges: seq<Exchange>, k: nat, c: nat, r: nat)
    requires env.Speaks() && k < |exchanges| && c < |exchanges[k].calls| && r < |exchanges[k].results|
    requires var call := exchanges[k].calls[c]; var result := exchanges[k].results[r];
             && Invocation(call.name) && Boundary(env, call.name, result) == ""
             && !result.pending && result.callId == call.id
    ensures Met(env, "invocation", exchanges) && Met(env, exchanges[k].calls[c].name, exchanges)
  {
    var call, result := exchanges[k].calls[c], exchanges[k].results[r];
    BoundarySilent(env, call.name, result);
    assert Satisfies(env, "invocation", call, result) && Satisfies(env, call.name, call, result);
    assert MetIn(env, "invocation", exchanges[k]) && MetIn(env, call.name, exchanges[k]);
  }
}
