/** OpenAI requests with tools: which results and uses are in the payload, read off the conversation. */
module OpenAITools {
  import opened Wrappers
  import opened KiroModel
  import opened KiroPasses
  import opened KiroPayload
  import opened KiroOrder
  import opened KiroTools
  import opened OpenAIMessages

  // ----- What is in a conversation -----

  /** The last to speak, apart from tools and system, is the assistant, with calls. */
  predicate Asked(ms: seq<ChatMessage>) {
    ms != [] &&
    var m := ms[|ms| - 1];
    match m.role
    case Chat(role) => role == Assistant && m.toolCalls.Some? && m.toolCalls.value != []
    case _ => Asked(ms[..|ms| - 1])
  }

  /** The results of tools that have been asked. */
  function Answers(ms: seq<ChatMessage>): seq<(string, string)> {
    if ms == [] then []
    else
      var init, m := ms[..|ms| - 1], ms[|ms| - 1];
      Answers(init) + if m.role.Tool? && Asked(init) then [(m.toolCallId.GetOr(""), Answer(m))] else []
  }

  /** The last message, apart from those of the system, is of the assistant. */
  predicate Answering(ms: seq<ChatMessage>) {
    ms != [] &&
    match ms[|ms| - 1].role
    case Chat(role) => role == Assistant
    case Tool => false
    case System => Answering(ms[..|ms| - 1])
  }

  /** The calls of the assistant, run by run; only messages of the system may stand within a run. */
  function CallRuns(ms: seq<ChatMessage>): seq<seq<ToolCall>> {
    if ms == [] then []
    else
      var init, m := ms[..|ms| - 1], ms[|ms| - 1];
      if m.role == Chat(Assistant) then Joining(CallRuns(init), Answering(init), m.toolCalls.GetOr([])) else CallRuns(init)
  }

  function Joining(runs: seq<seq<ToolCall>>, joins: bool, calls: seq<ToolCall>): seq<seq<ToolCall>> {
    if joins && runs != [] then runs[|runs| - 1 := runs[|runs| - 1] + calls] else runs + [calls]
  }

  // ----- Results in the payload -----

  lemma ResultsInEntry(m: Message)
    requires Plainly(m)
    ensures InPairs(ResultsFor(m)) == ListPairs(m.toolResults.GetOr([]))
  {
    if m.toolResults.None? && m.content.Blocks? {
      BlockResultsExist(m.content.blocks);
    }
  }

  lemma UsesInEntry(canon: string -> string, m: Message)
    requires Plainly(m)
    ensures UsesOf(canon, m) == Uses(canon, m.toolCalls.GetOr([]))
  {
    if m.content.Blocks? {
      NoBlockUses(m.content.blocks);
    }
  }

  /** The lists of calls of all assistant messages. */
  function CallLists(ms: seq<Message>): seq<seq<ToolCall>> {
    if ms == [] then []
    else
      var m := ms[|ms| - 1];
      CallLists(ms[..|ms| - 1]) + if m.role == Assistant then [m.toolCalls.GetOr([])] else []
  }

  function UseMaps(canon: string -> string, runs: seq<seq<ToolCall>>): seq<map<string, ToolUse>> {
    seq(|runs|, k requires 0 <= k < |runs| => Deduplicated(Uses(canon, runs[k])))
  }

  lemma UseMapsSnoc(canon: string -> string, runs: seq<seq<ToolCall>>, run: seq<ToolCall>)
    ensures UseMaps(canon, runs + [run]) == UseMaps(canon, runs) + [Deduplicated(Uses(canon, run))]
  {
  }

  lemma {:induction false} OneMoreSent(canon: string -> string, before: seq<Entry>, m: Message)
    requires Plainly(m)
    ensures SentResults(Extended(canon, before, m)) ==
            SentResults(before) + if m.role == User then ListPairs(m.toolResults.GetOr([])) else []
    ensures SentUses(Extended(canon, before, m)) ==
            SentUses(before) + if m.role == Assistant then [Deduplicated(Uses(canon, m.toolCalls.GetOr([])))] else []
  {
    assert SentResults(before) + [] == SentResults(before) && SentUses(before) + [] == SentUses(before);
    match m.role
    case User =>
      ResultsInEntry(m);
      SentSnoc(before, UserInput(m));
    case Assistant =>
      UsesInEntry(canon, m);
      SentSnoc(before, SYNTHETIC);
      SentSnoc(before, AssistantResponse(canon, m));
      SentSnoc(before + [SYNTHETIC], AssistantResponse(canon, m));
    case Other(_) =>
  }

  lemma {:induction false} HistorySends(canon: string -> string, ms: seq<Message>)
    requires AllPlainly(ms)
    ensures SentResults(History(canon, ms)) == ListPairs(Results(ms))
    ensures SentUses(History(canon, ms)) == UseMaps(canon, CallLists(ms))
  {
    if ms == [] {
    } else {
      var init, m := ms[..|ms| - 1], ms[|ms| - 1];
      assert forall k | 0 <= k < |init| :: init[k] == ms[k];
      HistorySends(canon, init);
      OneMoreSent(canon, History(canon, init), m);
      ListPairsAppend(Results(init), m.toolResults.GetOr([]));
      UseMapsSnoc(canon, CallLists(init), m.toolCalls.GetOr([]));
      assert Results(init) + [] == Results(init) && CallLists(init) + [] == CallLists(init);
      assert ListPairs(Results(init)) + [] == ListPairs(Results(init));
      assert UseMaps(canon, CallLists(init)) + [] == UseMaps(canon, CallLists(init));
    }
  }

  lemma {:induction false} SameTools(a: seq<Message>, b: seq<Message>)
    requires |a| == |b|
    requires forall k | 0 <= k < |a| ::
               a[k].role == b[k].role && a[k].toolCalls == b[k].toolCalls && a[k].toolResults == b[k].toolResults
    ensures Results(a) == Results(b) && CallLists(a) == CallLists(b)
  {
    if a == [] {
    } else {
      SameTools(a[..|a| - 1], b[..|b| - 1]);
    }
  }

  /** The uses of a last message of the assistant are not sent. */
  function SentMaps(canon: string -> string, runs: seq<seq<ToolCall>>, lastIsDropped: bool): seq<map<string, ToolUse>> {
    seq(|runs|, k requires 0 <= k < |runs| =>
      if lastIsDropped && k == |runs| - 1 then map[] else Deduplicated(Uses(canon, runs[k])))
  }

  lemma {:induction false} MergedSends(canon: string -> string, prompt: string, thinking: string, ms: seq<Message>)
    requires ms != [] && AllPlainly(ms)
    ensures var entries := Entries(PayloadOf(canon, prompt, thinking, ms));
            && SentResults(entries) == ListPairs(Results(ms))
            && SentUses(entries) == SentMaps(canon, CallLists(ms), ms[|ms| - 1].role == Assistant)
  {
    var init, last := ms[..|ms| - 1], ms[|ms| - 1];
    var earlier := Prompted(prompt, init);
    var history := History(canon, earlier);
    assert forall k | 0 <= k < |init| :: init[k] == ms[k];
    assert AllPlainly(earlier);
    SameTools(earlier, init);
    HistorySends(canon, earlier);
    ResultsInEntry(last);
    var p := PayloadOf(canon, prompt, thinking, ms);
    EndSends(history, AssistantEntry(LastText(prompt, ms), map[]), p.current);
    LastSends(canon, ms);
  }

  lemma {:induction false} LastSends(canon: string -> string, ms: seq<Message>)
    requires ms != [] && AllPlainly(ms)
    ensures var init, last := ms[..|ms| - 1], ms[|ms| - 1];
            && ListPairs(Results(ms)) == ListPairs(Results(init)) + ListPairs(last.toolResults.GetOr([]))
            && SentMaps(canon, CallLists(ms), last.role == Assistant) ==
               UseMaps(canon, CallLists(init)) + if last.role == Assistant then [map[]] else []
  {
    var init, last := ms[..|ms| - 1], ms[|ms| - 1];
    assert Plainly(last);
    ListPairsAppend(Results(init), last.toolResults.GetOr([]));
    assert Results(init) + [] == Results(init) && CallLists(init) + [] == CallLists(init);
    assert ListPairs(Results(init)) + [] == ListPairs(Results(init));
    assert UseMaps(canon, CallLists(init)) + [] == UseMaps(canon, CallLists(init));
  }

  // ----- Through the passes -----

  /** The results that the first pass keeps. */
  function KeptResults(ms: seq<Message>): seq<ToolResult> {
    if ms == [] then []
    else
      var init, m := ms[..|ms| - 1], ms[|ms| - 1];
      KeptResults(init) + if m.role == User && Follows(init) then m.toolResults.GetOr([]) else []
  }

  lemma {:induction false} EnsuringKeepsResults(ms: seq<Message>)
    ensures Results(Ensured(ms)) == KeptResults(ms) && Follows(Ensured(ms)) == Follows(ms)
  {
    if ms == [] {
    } else {
      var init := ms[..|ms| - 1];
      EnsuringKeepsResults(init);
      EnsuredAt(ms, |ms| - 1);
      assert Ensured(ms)[..|ms| - 1] == Ensured(init);
      assert KeptResults(init) + [] == KeptResults(init);
    }
  }

  /** The calls of assistants, run by run. */
  function RunCalls(ms: seq<Message>): seq<seq<ToolCall>> {
    if ms == [] then []
    else
      var init, m := ms[..|ms| - 1], ms[|ms| - 1];
      if m.role == Assistant then Joining(RunCalls(init), EndsInAnswer(init), m.toolCalls.GetOr([])) else RunCalls(init)
  }

  predicate EndsInAnswer(ms: seq<Message>) {
    ms != [] && ms[|ms| - 1].role == Assistant
  }

  lemma CallListsSnoc(ms: seq<Message>, m: Message)
    ensures CallLists(ms + [m]) == CallLists(ms) + if m.role == Assistant then [m.toolCalls.GetOr([])] else []
  {
    assert (ms + [m])[..|ms|] == ms;
  }

  lemma {:induction false} MergedWithLists(before: seq<Message>, m: Message)
    ensures CallLists(MergedWith(before, m)) ==
            if m.role == Assistant then Joining(CallLists(before), EndsInAnswer(before), m.toolCalls.GetOr([]))
            else CallLists(before)
  {
    var last := |before| - 1;
    assert CallLists(before) + [] == CallLists(before);
    if before != [] && before[last].role == m.role {
      var joined := Joined(before[last], m);
      assert before == before[..last] + [before[last]] && MergedWith(before, m) == before[..last] + [joined];
      CallListsSnoc(before[..last], before[last]);
      CallListsSnoc(before[..last], joined);
      JoinedTools(before[last], m);
    } else {
      CallListsSnoc(before, m);
    }
  }

  lemma {:induction false} MergingListsRuns(ms: seq<Message>)
    ensures CallLists(Merged(ms)) == RunCalls(ms)
  {
    if ms == [] {
    } else {
      MergingListsRuns(ms[..|ms| - 1]);
      MergingAlternates(ms[..|ms| - 1]);
      MergedWithLists(Merged(ms[..|ms| - 1]), ms[|ms| - 1]);
    }
  }

  lemma {:induction false} SameRuns(a: seq<Message>, b: seq<Message>)
    requires |a| == |b| && forall k | 0 <= k < |a| :: a[k].role == b[k].role && a[k].toolCalls == b[k].toolCalls
    ensures RunCalls(a) == RunCalls(b)
  {
    if a == [] {
    } else {
      SameRuns(a[..|a| - 1], b[..|b| - 1]);
    }
  }

  lemma {:induction false} MergingIsPlain(ms: seq<Message>)
    requires AllPlainly(ms)
    ensures AllPlainly(Merged(ms))
  {
    if ms == [] {
    } else {
      assert forall k | 0 <= k < |ms| - 1 :: ms[..|ms| - 1][k] == ms[k];
      MergingIsPlain(ms[..|ms| - 1]);
    }
  }

  // ----- Through the conversion -----

  lemma PendingKept(ms: seq<Message>, results: seq<ToolResult>)
    ensures KeptResults(ms + Pending(results)) == KeptResults(ms) + if Follows(ms) then results else []
    ensures RunCalls(ms + Pending(results)) == RunCalls(ms)
    ensures EndsInAnswer(ms + Pending(results)) <==> EndsInAnswer(ms) && results == []
  {
    assert KeptResults(ms) + [] == KeptResults(ms);
    if results == [] {
      assert ms + [] == ms;
    } else {
      assert (ms + Pending(results))[..|ms|] == ms;
    }
  }

  lemma ChatKept(ms: seq<Message>, m: ChatMessage)
    requires m.role.Chat?
    ensures KeptResults(ms + [Converted(m)]) == KeptResults(ms)
    ensures Follows(ms + [Converted(m)]) <==> m.role == Chat(Assistant) && m.toolCalls.GetOr([]) != []
    ensures RunCalls(ms + [Converted(m)]) ==
            if m.role == Chat(Assistant) then Joining(RunCalls(ms), EndsInAnswer(ms), m.toolCalls.GetOr([]))
            else RunCalls(ms)
    ensures EndsInAnswer(ms + [Converted(m)]) <==> m.role == Chat(Assistant)
  {
    assert (ms + [Converted(m)])[..|ms|] == ms;
    assert KeptResults(ms) + [] == KeptResults(ms);
  }

  /** What a scan holds of results that have been asked for. */
  function ScanAnswers(s: Scan): seq<(string, string)> {
    ListPairs(KeptResults(s.done)) + if Follows(s.done) then ListPairs(s.pending) else []
  }

  predicate ScanAgrees(s: Scan, ms: seq<ChatMessage>) {
    && ScanAnswers(s) == Answers(ms) && Follows(s.done) == Asked(ms)
    && RunCalls(s.done) == CallRuns(ms) && (Answering(ms) <==> EndsInAnswer(s.done) && s.pending == [])
  }

  lemma {:induction false} ToolAgrees(s: Scan, ms: seq<ChatMessage>, m: ChatMessage)
    requires ScanAgrees(s, ms) && m.role.Tool?
    ensures ScanAgrees(Scan(s.done, s.pending + [ResultOf(m)]), ms + [m])
  {
    assert (ms + [m])[..|ms|] == ms;
    assert Answers(ms) + [] == Answers(ms);
    ListPairsAppend(s.pending, [ResultOf(m)]);
    assert ListPairs([ResultOf(m)]) == [(m.toolCallId.GetOr(""), Answer(m))];
    var kept := ListPairs(KeptResults(s.done));
    assert kept + (ListPairs(s.pending) + ListPairs([ResultOf(m)])) ==
           kept + ListPairs(s.pending) + ListPairs([ResultOf(m)]);
  }

  lemma ChatAnswers(ms: seq<ChatMessage>, m: ChatMessage)
    requires m.role.Chat?
    ensures Answers(ms + [m]) == Answers(ms) && (Answering(ms + [m]) <==> m.role == Chat(Assistant))
    ensures Asked(ms + [m]) <==> m.role == Chat(Assistant) && m.toolCalls.GetOr([]) != []
    ensures CallRuns(ms + [m]) ==
            if m.role == Chat(Assistant) then Joining(CallRuns(ms), Answering(ms), m.toolCalls.GetOr([])) else CallRuns(ms)
  {
    assert (ms + [m])[..|ms|] == ms;
    assert Answers(ms) + [] == Answers(ms);
  }

  lemma {:induction false} PendingAnswers(s: Scan)
    ensures ListPairs(KeptResults(s.done + Pending(s.pending))) == ScanAnswers(s)
  {
    PendingKept(s.done, s.pending);
    ListPairsAppend(KeptResults(s.done), s.pending);
    assert ListPairs(KeptResults(s.done)) + [] == ListPairs(KeptResults(s.done));
    assert KeptResults(s.done) + [] == KeptResults(s.done);
  }

  lemma {:induction false} ChatAgrees(s: Scan, ms: seq<ChatMessage>, m: ChatMessage)
    requires ScanAgrees(s, ms) && m.role.Chat?
    ensures ScanAgrees(Scan(s.done + Pending(s.pending) + [Converted(m)], []), ms + [m])
  {
    ChatAnswers(ms, m);
    PendingAnswers(s);
    PendingKept(s.done, s.pending);
    ChatKept(s.done + Pending(s.pending), m);
    assert ScanAnswers(s) + [] == ScanAnswers(s) && ListPairs([]) == [];
  }

  lemma {:induction false} ScansAgree(ms: seq<ChatMessage>)
    requires forall k | 0 <= k < |ms| :: ms[k].role != System
    ensures ScanAgrees(Scanned(ms), ms)
  {
    if ms == [] {
    } else {
      var init, m := ms[..|ms| - 1], ms[|ms| - 1];
      assert forall k | 0 <= k < |init| :: init[k] == ms[k];
      ScansAgree(init);
      assert ms == init + [m];
      if m.role.Tool? {
        ToolAgrees(Scanned(init), init, m);
      } else {
        ChatAgrees(Scanned(init), init, m);
      }
    }
  }

  lemma {:induction false} SystemHasNoPart(ms: seq<ChatMessage>)
    ensures Answers(Conversation(ms)) == Answers(ms) && Asked(Conversation(ms)) == Asked(ms)
    ensures CallRuns(Conversation(ms)) == CallRuns(ms) && Answering(Conversation(ms)) == Answering(ms)
    ensures forall k | 0 <= k < |Conversation(ms)| :: Conversation(ms)[k].role != System
  {
    if ms == [] {
    } else {
      var init, m := ms[..|ms| - 1], ms[|ms| - 1];
      SystemHasNoPart(init);
      assert (Conversation(init) + [m])[..|Conversation(init)|] == Conversation(init);
      assert Answers(init) + [] == Answers(init);
    }
  }

  lemma {:induction false} UnifiedTools(ms: seq<ChatMessage>)
    ensures ListPairs(KeptResults(Unified(ms))) == Answers(ms) && RunCalls(Unified(ms)) == CallRuns(ms)
    ensures EndsInAnswer(Unified(ms)) <==> Answering(ms)
  {
    var s := Scanned(Conversation(ms));
    SystemHasNoPart(ms);
    ScansAgree(Conversation(ms));
    PendingKept(s.done, s.pending);
    ListPairsAppend(KeptResults(s.done), s.pending);
    assert ListPairs(KeptResults(s.done)) + [] == ListPairs(KeptResults(s.done));
    assert KeptResults(s.done) + [] == KeptResults(s.done);
  }

  // ----- The law -----

  /**
   * With tools, for every conversation: the results in the payload are those of the tools that have been asked, in
   * order, with their identifiers and texts; and the uses in its assistant entries are the calls, run by run, with
   * their identifiers, names and arguments, but for those of a last message of the assistant, which are not sent.
   */
  lemma {:induction false} ToolsArrive(canon: string -> string, prompt: string, thinking: string, ms: seq<ChatMessage>)
    ensures var p := PayloadFor(canon, prompt, thinking, ms, true);
            p.Ok? ==> && SentResults(Entries(p.value)) == Answers(ms)
                      && SentUses(Entries(p.value)) == SentMaps(canon, CallRuns(ms), Answering(ms))
  {
    var us := Unified(ms);
    var ensured := Ensured(us);
    if us != [] {
      ConversionIsPlain(ms);
      EnsuringStaysPlain(us);
      MergingIsPlain(ensured);
      MergingAlternates(ensured);
      MergedSends(canon, prompt, thinking, Merged(ensured));
      MergingKeepsTools(ensured);
      EnsuringKeepsResults(us);
      MergingListsRuns(ensured);
      SameRuns(ensured, us);
      UnifiedTools(ms);
    }
  }

  lemma {:induction false} EnsuringStaysPlain(ms: seq<Message>)
    requires AllPlainly(ms)
    ensures AllPlainly(Ensured(ms))
    ensures forall k | 0 <= k < |ms| :: Ensured(ms)[k].role == ms[k].role && Ensured(ms)[k].toolCalls == ms[k].toolCalls
  {
    forall k | 0 <= k < |ms|
      ensures SameButResults(Ensured(ms)[k], ms[k])
    {
      EnsuredAt(ms, k);
    }
  }

  /** A call whose identifier is its own within the run arrives as it is. */
  lemma {:induction false} CallArrives(canon: string -> string, run: seq<ToolCall>, k: nat)
    requires k < |run| && run[k].id != "" && !IsPlaceholder(run[k].id)
    requires forall j | 0 <= j < |run| && run[j].id == run[k].id :: run[j] == run[k]
    ensures run[k].id in Deduplicated(Uses(canon, run))
    ensures Deduplicated(Uses(canon, run))[run[k].id] == ToolUse(run[k].id, run[k].name, canon(run[k].arguments))
  {
    var uses, id := Uses(canon, run), run[k].id;
    assert uses[k] in uses && uses[k].id == id;
    LargestIsKept(uses, id);
    var kept := Deduplicated(uses)[id];
    var j :| 0 <= j < |uses| && uses[j] == kept;
    assert run[j].id == id;
  }
}
