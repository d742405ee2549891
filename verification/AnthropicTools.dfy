/** Anthropic requests with tools: which results and uses are in the payload, read off the conversation. */
module AnthropicTools {
  import opened Wrappers
  import opened KiroModel
  import opened KiroPasses
  import opened KiroPayload
  import opened KiroOrder
  import opened KiroTools
  import opened AnthropicMessages

  // ----- What is in a conversation -----

  function UsesIn(m: AnthropicMessage): seq<ToolCall> {
    UsesSaid(BlocksOf(m.content))
  }

  /** Identifier and text of the results in a message. */
  function Results(m: AnthropicMessage): seq<(string, string)> {
    ListPairs(ResultsSaid(BlocksOf(m.content)))
  }

  /** The assistant directly before has used tools. */
  predicate Asked(ms: seq<AnthropicMessage>, k: nat)
    requires k < |ms|
  {
    k > 0 && ms[k - 1].role == Assistant && UsesIn(ms[k - 1]) != []
  }

  predicate SomeUser(ms: seq<AnthropicMessage>) {
    exists k :: 0 <= k < |ms| && ms[k].role == User
  }

  /**
   * The results of a message are sent: they have been asked for, or the message keeps its blocks, because no neighbour
   * has its role and it does not take the system prompt. Of other roles only the last message sends results.
   */
  predicate Arrives(prompt: string, ms: seq<AnthropicMessage>, k: nat)
    requires k < |ms|
  {
    || (ms[k].role == User && Asked(ms, k))
    || (Single(ms, k) && (k < |ms| - 1 ==> ms[k].role == User && (prompt != "" ==> SomeUser(ms[..k]))))
  }

  /** The results that are sent of the first `n` messages. */
  function Arriving(prompt: string, ms: seq<AnthropicMessage>, n: nat): seq<(string, string)>
    requires n <= |ms|
  {
    if n == 0 then [] else Arriving(prompt, ms, n - 1) + if Arrives(prompt, ms, n - 1) then Results(ms[n - 1]) else []
  }

  /** The tool uses of a run of messages of the assistant; a run of one message sends its blocks, too. */
  datatype Run = Run(calls: seq<ToolCall>, single: bool)

  predicate Answering(ms: seq<AnthropicMessage>) {
    ms != [] && ms[|ms| - 1].role == Assistant
  }

  function Runs(ms: seq<AnthropicMessage>): seq<Run> {
    if ms == [] then []
    else
      var init, m := ms[..|ms| - 1], ms[|ms| - 1];
      if m.role == Assistant then OneMore(Runs(init), Answering(init), UsesIn(m)) else Runs(init)
  }

  function OneMore(runs: seq<Run>, joins: bool, calls: seq<ToolCall>): seq<Run> {
    if joins && runs != [] then runs[|runs| - 1 := Run(runs[|runs| - 1].calls + calls, false)] else runs + [Run(calls, true)]
  }

  function AsGiven(calls: seq<ToolCall>): seq<ToolUse> {
    seq(|calls|, k requires 0 <= k < |calls| => ToolUse(calls[k].id, calls[k].name, calls[k].arguments))
  }

  function UsesOfRun(canon: string -> string, run: Run): seq<ToolUse> {
    Uses(canon, run.calls) + if run.single then AsGiven(run.calls) else []
  }

  /** The uses in the assistant entries, run by run; those of a last message of the assistant are not sent. */
  function SentRuns(canon: string -> string, runs: seq<Run>, lastIsDropped: bool): seq<map<string, ToolUse>> {
    seq(|runs|, k requires 0 <= k < |runs| =>
      if lastIsDropped && k == |runs| - 1 then map[] else Deduplicated(UsesOfRun(canon, runs[k])))
  }

  // ----- In the payload for merged messages -----

  /** What a message of a history sends; with the system prompt in front its blocks are gone. */
  function Held(prompt: string, before: seq<Message>, m: Message): seq<(string, string)> {
    if m.role != User || (m.toolResults.None? && prompt != "" && FirstUser(before).None?) then []
    else InPairs(ResultsFor(m))
  }

  function AllHeld(prompt: string, ms: seq<Message>): seq<(string, string)> {
    if ms == [] then [] else AllHeld(prompt, ms[..|ms| - 1]) + Held(prompt, ms[..|ms| - 1], ms[|ms| - 1])
  }

  function Assistants(ms: seq<Message>): seq<Message> {
    if ms == [] then []
    else
      var before, m := Assistants(ms[..|ms| - 1]), ms[|ms| - 1];
      if m.role == Assistant then before + [m] else before
  }

  function UseMaps(canon: string -> string, ms: seq<Message>): seq<map<string, ToolUse>> {
    seq(|ms|, k requires 0 <= k < |ms| => Deduplicated(UsesOf(canon, ms[k])))
  }

  lemma {:induction false} ExtendedSends(canon: string -> string, before: seq<Entry>, m: Message)
    ensures SentResults(Extended(canon, before, m)) ==
            SentResults(before) + if m.role == User then InPairs(ResultsFor(m)) else []
    ensures SentUses(Extended(canon, before, m)) ==
            SentUses(before) + if m.role == Assistant then [Deduplicated(UsesOf(canon, m))] else []
  {
    assert SentResults(before) + [] == SentResults(before) && SentUses(before) + [] == SentUses(before);
    match m.role
    case User => SentSnoc(before, UserInput(m));
    case Assistant =>
      SentSnoc(before, SYNTHETIC);
      SentSnoc(before, AssistantResponse(canon, m));
      SentSnoc(before + [SYNTHETIC], AssistantResponse(canon, m));
    case Other(_) =>
  }

  lemma PromptLeavesHeld(canon: string -> string, prompt: string, before: seq<Message>, m: Message)
    ensures var p := PromptedMessage(prompt, before, m);
            && p.role == m.role
            && (m.role == User ==> InPairs(ResultsFor(p)) == Held(prompt, before, m))
            && (m.role == Assistant ==> p == m)
  {
  }

  lemma UseMapsSnoc(canon: string -> string, ms: seq<Message>, m: Message)
    ensures UseMaps(canon, ms + [m]) == UseMaps(canon, ms) + [Deduplicated(UsesOf(canon, m))]
  {
  }

  lemma AllHeldSnoc(prompt: string, ms: seq<Message>, m: Message)
    ensures AllHeld(prompt, ms + [m]) == AllHeld(prompt, ms) + Held(prompt, ms, m)
  {
    assert (ms + [m])[..|ms|] == ms;
  }

  lemma AssistantsSnoc(ms: seq<Message>, m: Message)
    ensures Assistants(ms + [m]) == if m.role == Assistant then Assistants(ms) + [m] else Assistants(ms)
  {
    assert (ms + [m])[..|ms|] == ms;
  }

  /** Entries that send what the messages of a history do. */
  predicate Sends(canon: string -> string, prompt: string, entries: seq<Entry>, ms: seq<Message>) {
    SentResults(entries) == AllHeld(prompt, ms) && SentUses(entries) == UseMaps(canon, Assistants(ms))
  }

  lemma {:induction false} HistorySends(canon: string -> string, prompt: string, ms: seq<Message>)
    ensures Sends(canon, prompt, History(canon, Prompted(prompt, ms)), ms)
  {
    if ms == [] {
    } else {
      var init, m := ms[..|ms| - 1], ms[|ms| - 1];
      HistorySends(canon, prompt, init);
      SendsStep(canon, prompt, init, m, ms);
    }
  }

  lemma {:induction false} SendsStep(canon: string -> string, prompt: string, init: seq<Message>, m: Message,
                                     ms: seq<Message>)
    requires Sends(canon, prompt, History(canon, Prompted(prompt, init)), init) && ms == init + [m]
    ensures Sends(canon, prompt, History(canon, Prompted(prompt, ms)), ms)
  {
    HistoryExtends(canon, prompt, init, m);
    OneMoreSends(canon, prompt, History(canon, Prompted(prompt, init)), init, m, History(canon, Prompted(prompt, ms)), ms);
  }

  lemma {:induction false} OneMoreSends(canon: string -> string, prompt: string, entries: seq<Entry>, ms: seq<Message>,
                                        m: Message, next: seq<Entry>, more: seq<Message>)
    requires Sends(canon, prompt, entries, ms) && more == ms + [m]
    requires next == Extended(canon, entries, PromptedMessage(prompt, ms, m))
    ensures Sends(canon, prompt, next, more)
  {
    ExtendedSends(canon, entries, PromptedMessage(prompt, ms, m));
    PromptLeavesHeld(canon, prompt, ms, m);
    AllHeldSnoc(prompt, ms, m);
    AssistantsSnoc(ms, m);
    UseMapsSnoc(canon, Assistants(ms), m);
    assert AllHeld(prompt, ms) + [] == AllHeld(prompt, ms);
    assert UseMaps(canon, Assistants(ms)) + [] == UseMaps(canon, Assistants(ms));
  }

  lemma {:induction false} MergedSends(canon: string -> string, prompt: string, thinking: string, ms: seq<Message>)
    requires ms != []
    ensures var entries, init, last := Entries(PayloadOf(canon, prompt, thinking, ms)), ms[..|ms| - 1], ms[|ms| - 1];
            && SentResults(entries) == AllHeld(prompt, init) + InPairs(ResultsFor(last))
            && SentUses(entries) == UseMaps(canon, Assistants(init)) + if last.role == Assistant then [map[]] else []
  {
    var init := ms[..|ms| - 1];
    HistorySends(canon, prompt, init);
    var p := PayloadOf(canon, prompt, thinking, ms);
    EndSends(History(canon, Prompted(prompt, init)), AssistantEntry(LastText(prompt, ms), map[]), p.current);
    assert UseMaps(canon, Assistants(init)) + [] == UseMaps(canon, Assistants(init));
  }

  // ----- Through the passes: results -----

  lemma {:induction false} BlockPairs(blocks: seq<Block>)
    ensures InPairs(BlockResults(blocks)) == ListPairs(BlockToolResults(blocks))
  {
    if blocks == [] {
    } else {
      var init, b := blocks[..|blocks| - 1], blocks[|blocks| - 1];
      BlockPairs(init);
      if b.ToolResultBlock? {
        ListPairsAppend(BlockToolResults(init), [ToolResult(b.toolUseId, b.content)]);
      } else {
        assert BlockToolResults(init) + [] == BlockToolResults(init) && BlockResults(init) + [] == BlockResults(init);
      }
    }
  }

  function Lists(m: Message): seq<(string, string)> {
    if m.role == User then ListPairs(m.toolResults.GetOr([])) else []
  }

  /** A message as it comes out of the first pass. */
  function Handed(ms: seq<AnthropicMessage>, m: AnthropicMessage): Message {
    Kept(Ensured(Unified(ms)), Converted(m))
  }

  predicate AskedAfter(ms: seq<AnthropicMessage>) {
    ms != [] && ms[|ms| - 1].role == Assistant && UsesIn(ms[|ms| - 1]) != []
  }

  lemma {:induction false} FollowsAsked(ms: seq<AnthropicMessage>)
    ensures Follows(Ensured(Unified(ms))) <==> AskedAfter(ms)
  {
    if ms != [] {
      EnsuredAt(Unified(ms), |ms| - 1);
      ConvertedTools(ms[|ms| - 1]);
    }
  }

  lemma {:induction false} HandedIs(ms: seq<AnthropicMessage>, m: AnthropicMessage)
    ensures var h := Handed(ms, m);
            && h.role == m.role && h.content == ConvertContent(m.content) && h.toolCalls == Converted(m).toolCalls
            && InPairs(ResultsFor(h)) == Results(m)
            && Lists(h) == (if m.role == User && AskedAfter(ms) then Results(m) else [])
            && (m.role == User && AskedAfter(ms) ==> h.toolResults.None? ==> Results(m) == [])
            && (!(m.role == User && AskedAfter(ms)) ==> h.toolResults.None?)
  {
    FollowsAsked(ms);
    ConvertedTools(m);
    ShownOf(m);
  }

  /** Results look the same in the list of a message and in its blocks. */
  lemma {:induction false} ShownOf(m: AnthropicMessage)
    ensures InPairs(KiroResults(ResultsSaid(BlocksOf(m.content)))) == Results(m)
    ensures var c := ConvertContent(m.content); InPairs(if c.Blocks? then BlockResults(c.blocks) else []) == Results(m)
  {
    ConvertedTools(m);
    var c := ConvertContent(m.content);
    if c.Blocks? {
      BlockPairs(c.blocks);
    }
  }

  lemma {:induction false} HeldWhenApart(prompt: string, before: seq<Message>, ms: seq<AnthropicMessage>,
                                         m: AnthropicMessage)
    requires FirstUser(before).Some? <==> SomeUser(ms)
    ensures Held(prompt, before, Handed(ms, m)) ==
            if m.role == User && (AskedAfter(ms) || (prompt != "" ==> SomeUser(ms))) then Results(m) else []
  {
    HandedIs(ms, m);
  }

  /** A joined message sends the lists of its parts. */
  lemma {:induction false} JoinedHolds(prompt: string, before: seq<Message>, a: Message, b: Message)
    requires a.role == b.role
    ensures Lists(Joined(a, b)) == Lists(a) + Lists(b) && Held(prompt, before, Joined(a, b)) == Lists(a) + Lists(b)
    ensures UserResults(a) ==> InPairs(ResultsFor(Joined(a, b))) == Lists(a) + Lists(b)
  {
    if a.role == User {
      var x, y := a.toolResults.GetOr([]), b.toolResults.GetOr([]);
      ListPairsAppend(x, y);
      assert x + [] == x;
    }
  }

  predicate SameRole(ms: seq<AnthropicMessage>, m: AnthropicMessage) {
    ms != [] && ms[|ms| - 1].role == m.role
  }

  /** What a message sends if others follow, one of its own role among them or not. */
  function SentOf(prompt: string, before: seq<AnthropicMessage>, m: AnthropicMessage, joined: bool): seq<(string, string)> {
    if m.role == User && (AskedAfter(before) || (!joined && (prompt != "" ==> SomeUser(before)))) then Results(m) else []
  }

  /** What all messages send if others follow, the next one of the same role or not. */
  function SentEarly(prompt: string, ms: seq<AnthropicMessage>, joins: bool): seq<(string, string)> {
    if ms == [] then []
    else
      var init, m := ms[..|ms| - 1], ms[|ms| - 1];
      SentEarly(prompt, init, SameRole(init, m)) + SentOf(prompt, init, m, joins || SameRole(init, m))
  }

  lemma {:induction false} UnifiedSnoc(ms: seq<AnthropicMessage>)
    requires ms != []
    ensures var init, m := ms[..|ms| - 1], ms[|ms| - 1];
            && Unified(ms)[..|ms| - 1] == Unified(init)
            && Refined(Unified(ms)) == MergedWith(Refined(Unified(init)), Handed(init, m))
  {
    var init := ms[..|ms| - 1];
    assert Unified(ms)[..|ms| - 1] == Unified(init);
    RefinedSnoc(Unified(ms));
  }

  lemma {:induction false} RefinedEnd(ms: seq<AnthropicMessage>)
    ensures var merged := Refined(Unified(ms));
            && (merged == [] <==> ms == []) && (ms != [] ==> merged[|merged| - 1].role == ms[|ms| - 1].role)
            && (FirstUser(merged).Some? <==> SomeUser(ms)) && AllUserResults(merged)
  {
    UnifiedIsNatural(ms);
    RefinedKeeps(Unified(ms));
    RefinedUsers(Unified(ms));
    UnifiedUsers(ms);
  }

  lemma UnifiedUsers(ms: seq<AnthropicMessage>)
    ensures FirstUser(Unified(ms)).Some? <==> SomeUser(ms)
  {
    assert forall k | 0 <= k < |ms| :: Unified(ms)[k].role == ms[k].role;
  }

  /** What the merged messages send, the last one's blocks included or not. */
  predicate Agrees(prompt: string, merged: seq<Message>, ms: seq<AnthropicMessage>) {
    && AllHeld(prompt, merged) == SentEarly(prompt, ms, false)
    && (merged != [] ==>
          AllHeld(prompt, merged[..|merged| - 1]) + Lists(merged[|merged| - 1]) == SentEarly(prompt, ms, true))
  }

  lemma {:induction false} MergedAgrees(prompt: string, ms: seq<AnthropicMessage>)
    ensures Agrees(prompt, Refined(Unified(ms)), ms)
  {
    if ms == [] {
    } else {
      var init, m := ms[..|ms| - 1], ms[|ms| - 1];
      MergedAgrees(prompt, init);
      UnifiedSnoc(ms);
      RefinedEnd(init);
      assert init + [m] == ms;
      OneMoreAgrees(prompt, Refined(Unified(init)), init, m, Refined(Unified(ms)), ms);
    }
  }

  lemma {:induction false} OneMoreAgrees(prompt: string, before: seq<Message>, init: seq<AnthropicMessage>,
                                         m: AnthropicMessage, merged: seq<Message>, ms: seq<AnthropicMessage>)
    requires Agrees(prompt, before, init) && (before == [] <==> init == [])
    requires merged == MergedWith(before, Handed(init, m)) && ms == init + [m]
    requires before != [] ==> before[|before| - 1].role == init[|init| - 1].role
    requires FirstUser(before).Some? <==> SomeUser(init)
    ensures Agrees(prompt, merged, ms)
  {
    if SameRole(init, m) {
      JoiningAgrees(prompt, before, init, m);
    } else {
      AddingAgrees(prompt, before, init, m);
    }
  }

  lemma {:induction false} JoiningAgrees(prompt: string, before: seq<Message>, init: seq<AnthropicMessage>,
                                         m: AnthropicMessage)
    requires Agrees(prompt, before, init) && SameRole(init, m) && before != []
    requires before[|before| - 1].role == m.role
    ensures Agrees(prompt, MergedWith(before, Handed(init, m)), init + [m])
  {
    HandedIs(init, m);
    JoinedHeld(prompt, before, Handed(init, m));
    SentEarlySnoc(prompt, init, m);
  }

  /** When a message joins the last one. */
  lemma {:induction false} JoinedHeld(prompt: string, before: seq<Message>, m: Message)
    requires before != [] && before[|before| - 1].role == m.role
    ensures var last, merged := |before| - 1, MergedWith(before, m);
            && |merged| == |before| && merged[..last] == before[..last] && merged[last] == Joined(before[last], m)
            && AllHeld(prompt, merged) == AllHeld(prompt, before[..last]) + Lists(before[last]) + Lists(m)
            && AllHeld(prompt, merged[..last]) + Lists(merged[last]) == AllHeld(prompt, merged)
  {
    var last := |before| - 1;
    var joined := Joined(before[last], m);
    assert MergedWith(before, m) == before[..last] + [joined];
    JoinedHolds(prompt, before[..last], before[last], m);
    AllHeldSnoc(prompt, before[..last], joined);
    Associates(AllHeld(prompt, before[..last]), Lists(before[last]), Lists(m));
  }

  lemma {:induction false} AddingAgrees(prompt: string, before: seq<Message>, init: seq<AnthropicMessage>,
                                        m: AnthropicMessage)
    requires Agrees(prompt, before, init) && !SameRole(init, m)
    requires before != [] ==> before[|before| - 1].role != m.role
    requires FirstUser(before).Some? <==> SomeUser(init)
    ensures Agrees(prompt, MergedWith(before, Handed(init, m)), init + [m])
  {
    var h := Handed(init, m);
    HandedIs(init, m);
    assert MergedWith(before, h) == before + [h];
    assert (before + [h])[..|before|] == before;
    AddingEarly(prompt, before, init, m);
    SentEarlySnoc(prompt, init, m);
  }

  lemma {:induction false} AddingEarly(prompt: string, before: seq<Message>, init: seq<AnthropicMessage>,
                                       m: AnthropicMessage)
    requires AllHeld(prompt, before) == SentEarly(prompt, init, false) && !SameRole(init, m)
    requires FirstUser(before).Some? <==> SomeUser(init)
    ensures AllHeld(prompt, before + [Handed(init, m)]) == SentEarly(prompt, init + [m], false)
  {
    HeldWhenApart(prompt, before, init, m);
    AllHeldSnoc(prompt, before, Handed(init, m));
    SentEarlySnoc(prompt, init, m);
  }

  lemma {:induction false} SentEarlySnoc(prompt: string, init: seq<AnthropicMessage>, m: AnthropicMessage)
    ensures forall joins :: SentEarly(prompt, init + [m], joins) ==
                            SentEarly(prompt, init, SameRole(init, m)) + SentOf(prompt, init, m, joins || SameRole(init, m))
  {
    assert (init + [m])[..|init|] == init;
  }

  /** What the last message sends. */
  predicate LastAgrees(prompt: string, merged: seq<Message>, init: seq<AnthropicMessage>, m: AnthropicMessage) {
    && merged != []
    && AllHeld(prompt, merged[..|merged| - 1]) + InPairs(ResultsFor(merged[|merged| - 1])) ==
       SentEarly(prompt, init, SameRole(init, m))
       + if !SameRole(init, m) || (m.role == User && AskedAfter(init)) then Results(m) else []
  }

  lemma {:induction false} LastSends(prompt: string, ms: seq<AnthropicMessage>)
    requires ms != []
    ensures LastAgrees(prompt, Refined(Unified(ms)), ms[..|ms| - 1], ms[|ms| - 1])
  {
    var init, m := ms[..|ms| - 1], ms[|ms| - 1];
    MergedAgrees(prompt, init);
    UnifiedSnoc(ms);
    RefinedEnd(init);
    if SameRole(init, m) {
      JoinedLast(prompt, Refined(Unified(init)), init, m);
    } else {
      AddedLast(prompt, Refined(Unified(init)), init, m);
    }
  }

  lemma {:induction false} AddedLast(prompt: string, before: seq<Message>, init: seq<AnthropicMessage>,
                                     m: AnthropicMessage)
    requires AllHeld(prompt, before) == SentEarly(prompt, init, false) && !SameRole(init, m)
    requires before != [] ==> before[|before| - 1].role != m.role
    ensures LastAgrees(prompt, MergedWith(before, Handed(init, m)), init, m)
  {
    HandedIs(init, m);
    assert MergedWith(before, Handed(init, m)) == before + [Handed(init, m)];
    assert (before + [Handed(init, m)])[..|before|] == before;
  }

  lemma {:induction false} JoinedLast(prompt: string, before: seq<Message>, init: seq<AnthropicMessage>,
                                      m: AnthropicMessage)
    requires Agrees(prompt, before, init) && before != [] && before[|before| - 1].role == m.role
    requires UserResults(before[|before| - 1]) && SameRole(init, m)
    ensures LastAgrees(prompt, MergedWith(before, Handed(init, m)), init, m)
  {
    HandedIs(init, m);
    JoinedHeld(prompt, before, Handed(init, m));
    JoinedHolds(prompt, [], before[|before| - 1], Handed(init, m));
  }

  // ----- The law for results -----

  /** Two messages of one role meet here. */
  predicate Joins(ms: seq<AnthropicMessage>, n: nat) {
    0 < n < |ms| && ms[n - 1].role == ms[n].role
  }

  lemma {:induction false} EarlyIsArriving(prompt: string, ms: seq<AnthropicMessage>, n: nat)
    requires n < |ms|
    ensures Arriving(prompt, ms, n) == SentEarly(prompt, ms[..n], Joins(ms, n))
  {
    if n == 0 {
    } else {
      EarlyIsArriving(prompt, ms, n - 1);
      EarlyStep(prompt, ms, n - 1, n);
    }
  }

  lemma {:induction false} EarlyStep(prompt: string, ms: seq<AnthropicMessage>, k: nat, n: nat)
    requires n == k + 1 < |ms| && Arriving(prompt, ms, k) == SentEarly(prompt, ms[..k], Joins(ms, k))
    ensures Arriving(prompt, ms, n) == SentEarly(prompt, ms[..n], Joins(ms, n))
  {
    var before, m := ms[..k], ms[k];
    assert ms[..n] == before + [m];
    SentEarlySnoc(prompt, before, m);
    EarlyIsOne(prompt, ms, k);
  }

  lemma {:induction false} EarlyIsOne(prompt: string, ms: seq<AnthropicMessage>, k: nat)
    requires k < |ms| - 1
    ensures SameRole(ms[..k], ms[k]) <==> Joins(ms, k)
    ensures (if Arrives(prompt, ms, k) then Results(ms[k]) else []) ==
            SentOf(prompt, ms[..k], ms[k], Joins(ms, k + 1) || Joins(ms, k))
  {
    assert k > 0 ==> ms[..k][|ms[..k]| - 1] == ms[k - 1];
  }

  /**
   * With tools, for every conversation: the results in the payload are those of the messages whose results arrive, in
   * order, with their identifiers and texts.
   */
  lemma {:induction false} ResultsArrive(canon: string -> string, prompt: string, thinking: string,
                                         ms: seq<AnthropicMessage>)
    requires ms != []
    ensures Merged(Ensured(Unified(ms))) != []
    ensures SentResults(Entries(PayloadOf(canon, prompt, thinking, Merged(Ensured(Unified(ms)))))) ==
            Arriving(prompt, ms, |ms|)
  {
    var n := |ms| - 1;
    LastSends(prompt, ms);
    MergedSends(canon, prompt, thinking, Refined(Unified(ms)));
    EarlyIsArriving(prompt, ms, n);
    LastIsArriving(prompt, ms);
  }

  lemma {:induction false} LastIsArriving(prompt: string, ms: seq<AnthropicMessage>)
    requires ms != []
    ensures var init, m := ms[..|ms| - 1], ms[|ms| - 1];
            && (SameRole(init, m) <==> |ms| > 1 && ms[|ms| - 2].role == m.role)
            && (Arrives(prompt, ms, |ms| - 1) <==> !SameRole(init, m) || (m.role == User && AskedAfter(init)))
  {
    assert |ms| > 1 ==> ms[..|ms| - 1][|ms| - 2] == ms[|ms| - 2];
  }

  // ----- Through the passes: uses -----

  lemma {:induction false} BlockUsesAreCalls(blocks: seq<Block>)
    ensures BlockUses(blocks) == AsGiven(BlockCalls(blocks))
  {
    if blocks == [] {
    } else {
      BlockUsesAreCalls(blocks[..|blocks| - 1]);
    }
  }

  predicate IsRun(m: Message, run: Run) {
    && m.toolCalls.GetOr([]) == run.calls
    && if run.single then (if m.content.Blocks? then BlockUses(m.content.blocks) else []) == AsGiven(run.calls)
       else m.content.Text?
  }

  lemma RunIsSent(canon: string -> string, m: Message, run: Run)
    requires IsRun(m, run)
    ensures UsesOf(canon, m) == UsesOfRun(canon, run)
  {
    assert UsesOf(canon, m) == Uses(canon, run.calls) + if m.content.Blocks? then BlockUses(m.content.blocks) else [];
  }

  lemma {:induction false} HandedIsRun(ms: seq<AnthropicMessage>, m: AnthropicMessage)
    requires m.role == Assistant
    ensures Handed(ms, m).role == Assistant && IsRun(Handed(ms, m), Run(UsesIn(m), true))
  {
    HandedIs(ms, m);
    ConvertedTools(m);
    var c := ConvertContent(m.content);
    if c.Blocks? {
      BlockUsesAreCalls(c.blocks);
    }
  }

  lemma JoinedIsRun(a: Message, run: Run, b: Message, more: Run)
    requires IsRun(a, run) && IsRun(b, more) && a.role == Assistant
    ensures IsRun(Joined(a, b), Run(run.calls + more.calls, false))
  {
    assert run.calls + [] == run.calls;
  }

  predicate AreRuns(ms: seq<Message>, runs: seq<Run>) {
    |ms| == |runs| && forall k | 0 <= k < |ms| :: IsRun(ms[k], runs[k])
  }

  lemma {:induction false} AssistantsJoin(before: seq<Message>, m: Message)
    requires before != [] && before[|before| - 1].role == m.role
    ensures var last := before[|before| - 1];
            if m.role == Assistant
            then Assistants(before) == Assistants(before[..|before| - 1]) + [last]
                 && Assistants(MergedWith(before, m)) == Assistants(before[..|before| - 1]) + [Joined(last, m)]
            else Assistants(MergedWith(before, m)) == Assistants(before)
  {
    var last := |before| - 1;
    assert before == before[..last] + [before[last]];
    assert MergedWith(before, m) == before[..last] + [Joined(before[last], m)];
    AssistantsSnoc(before[..last], before[last]);
    AssistantsSnoc(before[..last], Joined(before[last], m));
  }

  lemma {:induction false} RunGrows(before: seq<Message>, runs: seq<Run>, m: Message, calls: seq<ToolCall>)
    requires AreRuns(Assistants(before), runs) && m.role == Assistant && IsRun(m, Run(calls, true))
    ensures AreRuns(Assistants(MergedWith(before, m)),
                    OneMore(runs, before != [] && before[|before| - 1].role == Assistant, calls))
  {
    if before != [] && before[|before| - 1].role == Assistant {
      AssistantsJoin(before, m);
      JoinedIsRun(before[|before| - 1], runs[|runs| - 1], m, Run(calls, true));
    } else {
      AssistantsSnoc(before, m);
    }
  }

  lemma {:induction false} OthersKeepRuns(before: seq<Message>, m: Message)
    requires m.role != Assistant
    ensures Assistants(MergedWith(before, m)) == Assistants(before)
  {
    if before != [] && before[|before| - 1].role == m.role {
      AssistantsJoin(before, m);
    } else {
      AssistantsSnoc(before, m);
    }
  }

  lemma {:induction false} MergedRuns(ms: seq<AnthropicMessage>)
    ensures AreRuns(Assistants(Refined(Unified(ms))), Runs(ms))
  {
    if ms == [] {
    } else {
      var init, m := ms[..|ms| - 1], ms[|ms| - 1];
      MergedRuns(init);
      UnifiedSnoc(ms);
      RefinedEnd(init);
      if m.role == Assistant {
        HandedIsRun(init, m);
        RunGrows(Refined(Unified(init)), Runs(init), Handed(init, m), UsesIn(m));
      } else {
        OthersKeepRuns(Refined(Unified(init)), Handed(init, m));
      }
    }
  }

  lemma {:induction false} MapsOfRuns(canon: string -> string, ms: seq<Message>, runs: seq<Run>)
    requires AreRuns(ms, runs)
    ensures UseMaps(canon, ms) == SentRuns(canon, runs, false)
    ensures ms != [] ==> UseMaps(canon, ms[..|ms| - 1]) + [map[]] == SentRuns(canon, runs, true)
  {
    forall k | 0 <= k < |ms|
      ensures UsesOf(canon, ms[k]) == UsesOfRun(canon, runs[k])
    {
      RunIsSent(canon, ms[k], runs[k]);
    }
  }

  /**
   * With tools, for every conversation: the uses in the assistant entries are those of the assistant's messages, run by
   * run, with their identifiers, names and inputs, but for those of a last message of the assistant, which are not sent.
   */
  lemma {:induction false} UsesArrive(canon: string -> string, prompt: string, thinking: string,
                                      ms: seq<AnthropicMessage>)
    requires ms != []
    ensures Merged(Ensured(Unified(ms))) != []
    ensures SentUses(Entries(PayloadOf(canon, prompt, thinking, Merged(Ensured(Unified(ms)))))) ==
            SentRuns(canon, Runs(ms), Answering(ms))
  {
    var merged := Refined(Unified(ms));
    RefinedEnd(ms);
    MergedSends(canon, prompt, thinking, merged);
    MergedRuns(ms);
    MapsAtEnd(canon, merged, Runs(ms));
  }

  lemma {:induction false} MapsAtEnd(canon: string -> string, merged: seq<Message>, runs: seq<Run>)
    requires merged != [] && AreRuns(Assistants(merged), runs)
    ensures var last := merged[|merged| - 1];
            UseMaps(canon, Assistants(merged[..|merged| - 1])) + (if last.role == Assistant then [map[]] else []) ==
            SentRuns(canon, runs, last.role == Assistant)
  {
    var init, last := merged[..|merged| - 1], merged[|merged| - 1];
    MapsOfRuns(canon, Assistants(merged), runs);
    assert merged == init + [last];
    AssistantsSnoc(init, last);
    assert last.role == Assistant ==> Assistants(merged)[..|Assistants(merged)| - 1] == Assistants(init);
    assert UseMaps(canon, Assistants(init)) + [] == UseMaps(canon, Assistants(init));
  }

  /** A use whose identifier is its own within the run arrives, with its input as it is or parsed and printed again. */
  lemma {:induction false} UseArrives(canon: string -> string, run: Run, k: nat)
    requires k < |run.calls| && run.calls[k].id != "" && !IsPlaceholder(run.calls[k].id)
    requires forall j | 0 <= j < |run.calls| && run.calls[j].id == run.calls[k].id :: run.calls[j] == run.calls[k]
    ensures var call, sent := run.calls[k], Deduplicated(UsesOfRun(canon, run));
            call.id in sent
            && (sent[call.id] == ToolUse(call.id, call.name, canon(call.arguments))
                || sent[call.id] == ToolUse(call.id, call.name, call.arguments))
  {
    var uses, call := UsesOfRun(canon, run), run.calls[k];
    UsesStem(canon, run);
    assert uses[k] in uses && uses[k].id == call.id;
    LargestIsKept(uses, call.id);
    UseStems(canon, run, Deduplicated(uses)[call.id], call);
  }

  lemma UseStems(canon: string -> string, run: Run, u: ToolUse, call: ToolCall)
    requires u in UsesOfRun(canon, run) && u.id == call.id
    requires forall j | 0 <= j < |run.calls| && run.calls[j].id == call.id :: run.calls[j] == call
    ensures u == ToolUse(call.id, call.name, canon(call.arguments)) || u == ToolUse(call.id, call.name, call.arguments)
  {
    var uses := UsesOfRun(canon, run);
    UsesStem(canon, run);
    var j :| 0 <= j < |uses| && uses[j] == u;
    assert run.calls[if j < |run.calls| then j else j - |run.calls|].id == call.id;
  }

  lemma UsesStem(canon: string -> string, run: Run)
    ensures var uses, n := UsesOfRun(canon, run), |run.calls|;
            && |uses| == (if run.single then 2 * n else n)
            && forall j | 0 <= j < |uses| ::
                 uses[j] == if j < n then ToolUse(run.calls[j].id, run.calls[j].name, canon(run.calls[j].arguments))
                            else ToolUse(run.calls[j - n].id, run.calls[j - n].name, run.calls[j - n].arguments)
  {
  }
}
