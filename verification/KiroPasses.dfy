/** The passes over unified messages: stripping tool data, dropping orphaned results, merging neighbours. */
module KiroPasses {
  import opened Wrappers
  import opened Text
  import opened KiroModel

  // ----- Stripping -----

  function CallText(c: ToolCall): string {
    if c.id == "" then "[Tool: " + c.name + "]\n" + c.arguments
    else "[Tool: " + c.name + (" (" + c.id + ")]\n") + c.arguments
  }

  function ResultText(r: ToolResult): string {
    var content := OrPlaceholder(r.content, EMPTY_RESULT);
    if r.toolUseId == "" then "[Tool Result]\n" + content else "[Tool Result (" + r.toolUseId + ")]\n" + content
  }

  /** `tool_calls_to_text`. */
  function CallsText(calls: seq<ToolCall>): string {
    Join(seq(|calls|, k requires 0 <= k < |calls| => CallText(calls[k])), "\n\n")
  }

  /** `tool_results_to_text`. */
  function ResultsText(results: seq<ToolResult>): string {
    Join(seq(|results|, k requires 0 <= k < |results| => ResultText(results[k])), "\n\n")
  }

  function Part(text: string): seq<string> {
    if text == "" then [] else [text]
  }

  function StrippedText(m: Message): string {
    var parts := Part(TextOf(m.content)) + Part(CallsText(m.toolCalls.GetOr([]))) + Part(ResultsText(m.toolResults.GetOr([])));
    if parts == [] then EMPTY else Join(parts, "\n\n")
  }

  function Stripped(m: Message): Message {
    if HasCalls(m) || HasResults(m) then Message(m.role, Text(StrippedText(m)), None, None) else m
  }

  function StrippedAll(ms: seq<Message>): seq<Message> {
    seq(|ms|, k requires 0 <= k < |ms| => Stripped(ms[k]))
  }

  lemma StrippedSnoc(ms: seq<Message>, m: Message)
    ensures StrippedAll(ms + [m]) == StrippedAll(ms) + [Stripped(m)]
  {
  }

  function AnyTools(ms: seq<Message>): bool {
    ms != [] && (AnyTools(ms[..|ms| - 1]) || HasCalls(ms[|ms| - 1]) || HasResults(ms[|ms| - 1]))
  }

  lemma AnyToolsSnoc(ms: seq<Message>, m: Message)
    ensures AnyTools(ms + [m]) <==> AnyTools(ms) || HasCalls(m) || HasResults(m)
  {
    assert (ms + [m])[..|ms|] == ms;
  }

  method StripText(m: Message) returns (content: string)
    ensures content == StrippedText(m)
  {
    var parts := [];
    var existing := TextOf(m.content);
    if existing != "" {
      parts := parts + [existing];
    }
    assert parts == Part(existing) && CallsText([]) == "" && ResultsText([]) == "";
    if HasCalls(m) {
      var toolText := CallsText(m.toolCalls.value);
      if toolText != "" {
        parts := parts + [toolText];
      }
    }
    ghost var both := Part(existing) + Part(CallsText(m.toolCalls.GetOr([])));
    assert Part(existing) + [] == Part(existing);
    assert parts == both;
    if HasResults(m) {
      var resultText := ResultsText(m.toolResults.value);
      if resultText != "" {
        parts := parts + [resultText];
      }
    }
    assert both + [] == both;
    content := if parts == [] then EMPTY else Join(parts, "\n\n");
  }

  method StripMessage(m: Message) returns (stripped: Message)
    ensures stripped == Stripped(m)
  {
    if HasCalls(m) || HasResults(m) {
      var content := StripText(m);
      stripped := Message(m.role, Text(content), None, None);
    } else {
      stripped := m;
    }
  }

  method StripAllToolContent(ms: seq<Message>) returns (result: seq<Message>, hadToolContent: bool)
    ensures result == StrippedAll(ms) && hadToolContent == AnyTools(ms)
  {
    result, hadToolContent := [], false;
    for i := 0 to |ms|
      invariant result == StrippedAll(ms[..i]) && hadToolContent == AnyTools(ms[..i])
    {
      var m := ms[i];
      StrippedSnoc(ms[..i], m);
      AnyToolsSnoc(ms[..i], m);
      hadToolContent := hadToolContent || HasCalls(m) || HasResults(m);
      var stripped := StripMessage(m);
      result := result + [stripped];
      assert ms[..i + 1] == ms[..i] + [m];
    }
    assert ms[..|ms|] == ms;
  }

  // ----- Orphaned results -----

  /** An assistant message with calls stands directly before. */
  function Follows(before: seq<Message>): bool {
    before != [] && before[|before| - 1].role == Assistant && HasCalls(before[|before| - 1])
  }

  function Kept(before: seq<Message>, m: Message): Message {
    if HasResults(m) && !Follows(before) then m.(toolResults := None) else m
  }

  function Ensured(ms: seq<Message>): (r: seq<Message>)
    ensures |r| == |ms|
  {
    if ms == [] then []
    else
      var init := Ensured(ms[..|ms| - 1]);
      init + [Kept(init, ms[|ms| - 1])]
  }

  method EnsureAssistantBeforeToolResults(ms: seq<Message>) returns (result: seq<Message>, strippedAny: bool)
    ensures result == Ensured(ms) && strippedAny == (result != ms)
  {
    result, strippedAny := [], false;
    for i := 0 to |ms|
      invariant result == Ensured(ms[..i]) && strippedAny == (result != ms[..i])
    {
      assert ms[..i + 1][..i] == ms[..i] && ms[..i + 1] == ms[..i] + [ms[i]];
      ghost var before := result;
      if HasResults(ms[i]) && !Follows(result) {
        result := result + [ms[i].(toolResults := None)];
        strippedAny := true;
        assert result[i] != ms[..i + 1][i];
      } else {
        result := result + [ms[i]];
        assert result == ms[..i + 1] ==> before == ms[..i] by {
          assert result[..i] == before;
        }
      }
    }
    assert ms[..|ms|] == ms;
  }

  // ----- Merging -----

  /** A list that is there takes in another list; one that is absent comes into being only with another one. */
  function Appended<T>(a: Option<seq<T>>, b: Option<seq<T>>): Option<seq<T>> {
    if b.Some? then Some(a.GetOr([]) + b.value) else a
  }

  function Joined(a: Message, b: Message): Message {
    Message(a.role, Text(TextOf(a.content) + "\n" + TextOf(b.content)),
            if a.role == Assistant then Appended(a.toolCalls, b.toolCalls) else a.toolCalls,
            if a.role == User then Appended(a.toolResults, b.toolResults) else a.toolResults)
  }

  function MergedWith(before: seq<Message>, m: Message): seq<Message> {
    var last := |before| - 1;
    if before != [] && before[last].role == m.role then before[last := Joined(before[last], m)] else before + [m]
  }

  function Merged(ms: seq<Message>): seq<Message> {
    if ms == [] then [] else MergedWith(Merged(ms[..|ms| - 1]), ms[|ms| - 1])
  }

  method MergeAdjacentMessages(ms: seq<Message>) returns (merged: seq<Message>)
    ensures merged == Merged(ms)
  {
    merged := [];
    for i := 0 to |ms|
      invariant merged == Merged(ms[..i])
    {
      assert ms[..i + 1][..i] == ms[..i];
      var m := ms[i];
      if merged == [] {
        merged := merged + [m];
        continue;
      }
      var last := |merged| - 1;
      if m.role == merged[last].role {
        var into := merged[last];
        into := into.(content := Text(TextOf(into.content) + "\n" + TextOf(m.content)));
        if m.role == Assistant && m.toolCalls.Some? {
          into := into.(toolCalls := Some(into.toolCalls.GetOr([]) + m.toolCalls.value));
        }
        if m.role == User && m.toolResults.Some? {
          into := into.(toolResults := Some(into.toolResults.GetOr([]) + m.toolResults.value));
        }
        merged := merged[last := into];
      } else {
        merged := merged + [m];
      }
    }
    assert ms[..|ms|] == ms;
  }

  // ----- What merging keeps -----

  /** No two neighbours have the same role. */
  predicate RolesAlternate(ms: seq<Message>) {
    |ms| > 1 ==> RolesAlternate(ms[..|ms| - 1]) && ms[|ms| - 2].role != ms[|ms| - 1].role
  }

  lemma {:induction false} MergingAlternates(ms: seq<Message>)
    ensures RolesAlternate(Merged(ms)) && (Merged(ms) == [] <==> ms == [])
    ensures ms != [] ==> Merged(ms)[|Merged(ms)| - 1].role == ms[|ms| - 1].role && Merged(ms)[0].role == ms[0].role
  {
    if ms == [] {
    } else {
      var before, m := Merged(ms[..|ms| - 1]), ms[|ms| - 1];
      MergingAlternates(ms[..|ms| - 1]);
      if before != [] {
        var last := |before| - 1;
        assert MergedWith(before, m)[..|MergedWith(before, m)| - 1] == if before[last].role == m.role then before[..last] else before;
      }
    }
  }

  function OwnCalls(m: Message): seq<ToolCall> {
    if m.role == Assistant then m.toolCalls.GetOr([]) else []
  }

  function OwnResults(m: Message): seq<ToolResult> {
    if m.role == User then m.toolResults.GetOr([]) else []
  }

  lemma CallsSnoc(ms: seq<Message>, m: Message)
    ensures Calls(ms + [m]) == Calls(ms) + OwnCalls(m) && Results(ms + [m]) == Results(ms) + OwnResults(m)
  {
    assert (ms + [m])[..|ms|] == ms;
  }

  lemma JoinedTools(a: Message, b: Message)
    requires a.role == b.role
    ensures OwnCalls(Joined(a, b)) == OwnCalls(a) + OwnCalls(b) && OwnResults(Joined(a, b)) == OwnResults(a) + OwnResults(b)
  {
    assert OwnCalls(a) + [] == OwnCalls(a) && OwnResults(a) + [] == OwnResults(a);
  }

  lemma Associates<T>(a: seq<T>, b: seq<T>, c: seq<T>)
    ensures a + (b + c) == a + b + c
  {
  }

  lemma MergedWithTools(before: seq<Message>, m: Message)
    ensures Calls(MergedWith(before, m)) == Calls(before) + OwnCalls(m)
    ensures Results(MergedWith(before, m)) == Results(before) + OwnResults(m)
  {
    var last := |before| - 1;
    if before != [] && before[last].role == m.role {
      var init, joined := before[..last], Joined(before[last], m);
      JoinedTools(before[last], m);
      assert before == init + [before[last]] && MergedWith(before, m) == init + [joined];
      CallsSnoc(init, before[last]);
      CallsSnoc(init, joined);
      Associates(Calls(init), OwnCalls(before[last]), OwnCalls(m));
      Associates(Results(init), OwnResults(before[last]), OwnResults(m));
    } else {
      CallsSnoc(before, m);
    }
  }

  /** Merging keeps all calls of assistant messages and all results of user messages, in order. */
  lemma {:induction false} MergingKeepsTools(ms: seq<Message>)
    ensures Calls(Merged(ms)) == Calls(ms) && Results(Merged(ms)) == Results(ms)
  {
    if ms == [] {
    } else {
      MergingKeepsTools(ms[..|ms| - 1]);
      MergedWithTools(Merged(ms[..|ms| - 1]), ms[|ms| - 1]);
    }
  }

  /** The texts of a run of messages, one per line. */
  function Texts(ms: seq<Message>): seq<string> {
    seq(|ms|, k requires 0 <= k < |ms| => TextOf(ms[k].content))
  }

  /** The longest runs of neighbouring messages of one role. */
  function Runs(ms: seq<Message>): seq<seq<Message>> {
    if ms == [] then []
    else
      var init, m, before := ms[..|ms| - 1], ms[|ms| - 1], Runs(ms[..|ms| - 1]);
      var last := |before| - 1;
      if before != [] && init[|init| - 1].role == m.role then before[last := before[last] + [m]] else before + [[m]]
  }

  function Together(runs: seq<seq<Message>>): seq<Message> {
    if runs == [] then [] else Together(runs[..|runs| - 1]) + runs[|runs| - 1]
  }

  /** The runs make up the list. */
  lemma {:induction false} RunsAreAll(ms: seq<Message>)
    ensures Together(Runs(ms)) == ms && (Runs(ms) == [] <==> ms == [])
  {
    if ms == [] {
    } else {
      var m, before := ms[|ms| - 1], Runs(ms[..|ms| - 1]);
      RunsAreAll(ms[..|ms| - 1]);
      assert (before + [[m]])[..|before|] == before;
      if before != [] {
        var last := |before| - 1;
        assert before[last := before[last] + [m]][..last] == before[..last];
        Associates(Together(before[..last]), before[last], [m]);
      }
    }
  }

  /** A message made of a run: of its role, with its texts joined by newlines. */
  predicate IsMergeOf(m: Message, run: seq<Message>) {
    && run != [] && (forall k | 0 <= k < |run| :: run[k].role == m.role)
    && TextOf(m.content) == Join(Texts(run), "\n")
  }

  lemma RunGrows(a: Message, run: seq<Message>, m: Message)
    requires IsMergeOf(a, run) && a.role == m.role
    ensures IsMergeOf(Joined(a, m), run + [m])
  {
    assert Texts(run + [m]) == Texts(run) + [TextOf(m.content)];
    JoinSnoc(Texts(run), TextOf(m.content), "\n");
  }

  lemma RunStarts(m: Message)
    ensures IsMergeOf(m, [m])
  {
    assert Texts([m]) == [TextOf(m.content)];
  }

  /** Every merged message is made of one of the longest runs, in order. */
  lemma {:induction false} RunsJoinTexts(ms: seq<Message>)
    ensures |Merged(ms)| == |Runs(ms)| && forall k | 0 <= k < |Runs(ms)| :: IsMergeOf(Merged(ms)[k], Runs(ms)[k])
  {
    if ms == [] {
    } else {
      var init, m := ms[..|ms| - 1], ms[|ms| - 1];
      RunsJoinTexts(init);
      MergingAlternates(init);
      RunsAreAll(init);
      RunStarts(m);
      if init != [] && init[|init| - 1].role == m.role {
        var last := |Merged(init)| - 1;
        RunGrows(Merged(init)[last], Runs(init)[last], m);
      }
    }
  }

  lemma MergedWithAppend(a: seq<Message>, b: seq<Message>, m: Message)
    requires b != []
    ensures MergedWith(a + b, m) == a + MergedWith(b, m)
  {
    assert (a + b)[|a + b| - 1] == b[|b| - 1];
  }

  /** Where roles change, merging splits. */
  lemma {:induction false} MergingSplits(a: seq<Message>, b: seq<Message>)
    requires a != [] && b != [] && a[|a| - 1].role != b[0].role
    ensures Merged(a + b) == Merged(a) + Merged(b)
    decreases |b|
  {
    var init, m := b[..|b| - 1], b[|b| - 1];
    assert (a + b)[..|a + b| - 1] == a + init;
    MergingAlternates(a);
    if init == [] {
      assert b == [m] && a + init == a && Merged(b) == [m];
    } else {
      MergingSplits(a, init);
      MergingAlternates(init);
      MergedWithAppend(Merged(a), Merged(init), m);
    }
  }
}
