/** The per-turn memory of tool calls (internal/assistant/ledger.go). */
module Ledger {
  import opened Options
  import opened Tools

  /** `key` is "" for a call that must never be served from memory. */
  datatype Entry = Entry(name: string, key: string, content: string, isError: bool)

  /** The content of the first entry for this tool and input; an empty key matches nothing. */
  function Find(entries: seq<Entry>, name: string, key: string): Option<string> {
    if entries == [] || key == "" then None
    else if entries[0].name == name && entries[0].key == key then Some(entries[0].content)
    else Find(entries[1..], name, key)
  }

  class ExplorationLedger {
    var entries: seq<Entry>

    constructor ()
      ensures entries == []
    {
      entries := [];
    }

    method Record(call: ToolCall, result: ToolResult)
      modifies this
      ensures entries == old(entries) + [Entry(call.name, call.key, result.content, result.isError)]
    {
      entries := entries + [Entry(call.name, call.key, result.content, result.isError)];
    }

    method RecordNonCacheable(call: ToolCall, result: ToolResult)
      modifies this
      ensures entries == old(entries) + [Entry(call.name, "", result.content, result.isError)]
    {
      entries := entries + [Entry(call.name, "", result.content, result.isError)];
    }

    method IsDuplicate(call: ToolCall) returns (cached: Option<string>)
      ensures cached == Find(entries, call.name, call.key)
    {
      if call.key == "" {
        return None;
      }
      var k := 0;
      while k < |entries|
        invariant 0 <= k <= |entries|
        invariant Find(entries, call.name, call.key) == Find(entries[k..], call.name, call.key)
      {
        if entries[k].name == call.name && entries[k].key == call.key {
          return Some(entries[k].content);
        }
        k := k + 1;
      }
      return None;
    }
  }

  lemma {:induction false} FindAppend(entries: seq<Entry>, e: Entry, name: string, key: string)
    ensures Find(entries + [e], name, key) ==
            if Find(entries, name, key).Some? then Find(entries, name, key)
            else if key != "" && e.name == name && e.key == key then Some(e.content) else None
  {
    if entries == [] {
      assert (entries + [e])[1..] == [];
    } else if key != "" {
      assert (entries + [e])[1..] == entries[1..] + [e];
      FindAppend(entries[1..], e, name, key);
    }
  }
}
