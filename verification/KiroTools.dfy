/** Tool results and tool uses in the entries of a payload. */
module KiroTools {
  import opened KiroModel

  // ----- What is in a payload -----

  /** Identifier and text of all results in the entries, in order. */
  function SentResults(entries: seq<Entry>): seq<(string, string)> {
    if entries == [] then []
    else
      var e := entries[|entries| - 1];
      SentResults(entries[..|entries| - 1]) + if e.UserEntry? then InPairs(e.toolResults) else []
  }

  function InPairs(results: seq<KiroResult>): seq<(string, string)> {
    seq(|results|, k requires 0 <= k < |results| => (results[k].toolUseId, results[k].text))
  }

  /** The tool uses of all assistant entries, in order. */
  function SentUses(entries: seq<Entry>): seq<map<string, ToolUse>> {
    if entries == [] then []
    else
      var e := entries[|entries| - 1];
      SentUses(entries[..|entries| - 1]) + if e.AssistantEntry? then [e.toolUses] else []
  }

  /** A call as a tool use, with its arguments as JSON. */
  function Uses(canon: string -> string, calls: seq<ToolCall>): seq<ToolUse> {
    seq(|calls|, k requires 0 <= k < |calls| => ToolUse(calls[k].id, calls[k].name, canon(calls[k].arguments)))
  }

  /** Identifier and text of listed results; an empty text gives way to a placeholder. */
  function ListPairs(results: seq<ToolResult>): seq<(string, string)> {
    seq(|results|, k requires 0 <= k < |results| =>
      (results[k].toolUseId, if results[k].content == "" then "(empty result)" else results[k].content))
  }

  lemma ListPairsAppend(a: seq<ToolResult>, b: seq<ToolResult>)
    ensures ListPairs(a + b) == ListPairs(a) + ListPairs(b)
  {
  }

  lemma SentSnoc(entries: seq<Entry>, e: Entry)
    ensures SentResults(entries + [e]) == SentResults(entries) + if e.UserEntry? then InPairs(e.toolResults) else []
    ensures SentUses(entries + [e]) == SentUses(entries) + if e.AssistantEntry? then [e.toolUses] else []
  {
    assert (entries + [e])[..|entries|] == entries;
  }

  lemma {:induction false} EndSends(history: seq<Entry>, answer: Entry, current: Entry)
    requires answer == AssistantEntry(answer.content, map[]) && current.UserEntry?
    ensures SentResults(history + [current]) == SentResults(history) + InPairs(current.toolResults)
    ensures SentResults(history + [SYNTHETIC, answer] + [current]) == SentResults(history) + InPairs(current.toolResults)
    ensures SentUses(history + [current]) == SentUses(history)
    ensures SentUses(history + [SYNTHETIC, answer] + [current]) == SentUses(history) + [map[]]
  {
    SentSnoc(history, current);
    SentSnoc(history, SYNTHETIC);
    SentSnoc(history + [SYNTHETIC], answer);
    assert history + [SYNTHETIC] + [answer] == history + [SYNTHETIC, answer];
    SentSnoc(history + [SYNTHETIC, answer], current);
    assert SentResults(history) + [] == SentResults(history) && SentUses(history) + [] == SentUses(history);
    assert SentUses(history) + [map[]] + [] == SentUses(history) + [map[]];
  }
}
