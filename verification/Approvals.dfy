/** Requests that wait for the user's consent, at most one per chat (internal/assistant/approvals.go). */
module Approvals {
  import opened Options
  import opened Tools

  datatype Request = Request(call: ToolCall, level: Level)

  class ApprovalStore {
    var pending: map<string, Request>

    constructor ()
      ensures pending == map[]
    {
      pending := map[];
    }

    /** A newer request replaces the chat's older one. */
    method Set(chat: string, call: ToolCall, level: Level)
      modifies this
      ensures pending == old(pending)[chat := Request(call, level)]
    {
      pending := pending[chat := Request(call, level)];
    }

    /** Hands the request out at most once. */
    method Take(chat: string) returns (taken: Option<Request>)
      modifies this
      ensures pending == old(pending) - {chat}
      ensures taken == if chat in old(pending) then Some(old(pending)[chat]) else None
    {
      taken := None;
      if chat in pending {
        taken := Some(pending[chat]);
        pending := pending - {chat};
      }
    }
  }
}
