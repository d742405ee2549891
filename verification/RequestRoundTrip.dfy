/** From OpenAI to Anthropic and back: exactly which conversations return unchanged. */
module RequestRoundTrip {
  import opened Wrappers
  import opened ChatModel
  import opened RequestConversion

  /** The conversation without its system messages. */
  function Conversation(ms: seq<ChatMessage>): seq<ChatMessage> {
    if ms == [] then []
    else if ms[|ms| - 1].role == System then Conversation(ms[..|ms| - 1])
    else Conversation(ms[..|ms| - 1]) + [ms[|ms| - 1]]
  }

  /** System messages are taken out, all of them and nothing else, and both parts keep their order. */
  lemma {:induction false} HoistingKeepsOrder(a: seq<ChatMessage>, m: ChatMessage, b: seq<ChatMessage>)
    ensures SystemTexts(a + [m] + b) ==
            SystemTexts(a) + (if m.role == System then [TextOf(m.content)] else []) + SystemTexts(b)
    ensures Conversation(a + [m] + b) == Conversation(a) + (if m.role == System then [] else [m]) + Conversation(b)
    decreases |b|
  {
    if b == [] {
      assert a + [m] + b == a + [m] && (a + [m])[..|a|] == a;
      assert SystemTexts(a) + [] == SystemTexts(a) && Conversation(a) + [] == Conversation(a);
      assert SystemTexts(a + [m]) + [] == SystemTexts(a + [m]) && Conversation(a + [m]) + [] == Conversation(a + [m]);
    } else {
      var all := a + [m] + b;
      assert all[..|all| - 1] == a + [m] + b[..|b| - 1];
      HoistingKeepsOrder(a, m, b[..|b| - 1]);
    }
  }

  /**
   * A message in normal form: a user message whose content is there and no array; an assistant message with a text,
   * or with calls whose arguments are canonical and no empty text; a tool message with an identifier and a content.
   */
  predicate Normal(canon: string -> string, m: ChatMessage) {
    match m.role
    case System => false
    case Assistant => m.toolCallId == None && NormalAnswer(canon, m.content, m.toolCalls)
    case ToolRole => m.toolCalls == None && m.toolCallId.Some? && m.content.Some? && m.content.value != Null
    case _ => m.toolCalls == None && m.toolCallId == None && m.content.Some? && !m.content.value.Arr?
  }

  predicate NormalAnswer(canon: string -> string, content: Option<Value>, toolCalls: Option<seq<ToolCall>>) {
    match toolCalls
    case None => content.Some? && content.value.Str?
    case Some(calls) =>
      calls != [] && Canonical(canon, calls) && (content == None || (content.value.Str? && content.value.s != ""))
  }

  predicate Canonical(canon: string -> string, calls: seq<ToolCall>) {
    forall k | 0 <= k < |calls| :: canon(calls[k].arguments) == calls[k].arguments
  }

  predicate AllNormal(canon: string -> string, ms: seq<ChatMessage>) {
    forall k | 0 <= k < |ms| :: Normal(canon, ms[k])
  }

  // ----- Normal conversations return -----

  /** Every user message with array content holds nothing but results. */
  predicate OnlyResults(m: AnthropicMessage) {
    m.role == User && m.content.Arr? ==> forall k | 0 <= k < |m.content.parts| :: m.content.parts[k].ToolResultPart?
  }

  lemma {:induction false} NothingRemains(parts: seq<Part>)
    requires forall k | 0 <= k < |parts| :: parts[k].ToolResultPart?
    ensures TextsIn(parts) == [] && CallsIn(parts) == []
  {
    if parts == [] {
    } else {
      NothingRemains(parts[..|parts| - 1]);
    }
  }

  lemma PartsSnoc(parts: seq<Part>, p: Part)
    ensures ResultsIn(parts + [p]) ==
            ResultsIn(parts) + match p case ToolResultPart(id, content) => [ResultMessage(id, content)] case _ => []
    ensures TextsIn(parts + [p]) ==
            TextsIn(parts) + match p case TextPart(Some(text)) => [text] case OtherPart(Some(text)) => [text] case _ => []
    ensures CallsIn(parts + [p]) ==
            CallsIn(parts) + match p case ToolUsePart(id, name, input) => [ToolCall(id, name, input)] case _ => []
  {
    assert (parts + [p])[..|parts|] == parts;
  }

  lemma SplitsSnoc(ms: seq<AnthropicMessage>, m: AnthropicMessage)
    ensures Splits(ms + [m]) == Splits(ms) + Split(m)
  {
    assert (ms + [m])[..|ms|] == ms;
  }

  /** A message of results takes in one more. */
  lemma ResultJoins(m: AnthropicMessage, id: string, content: Option<Value>)
    requires m.role == User && m.content.Arr? && OnlyResults(m)
    ensures Split(AnthropicMessage(User, Arr(m.content.parts + [ToolResultPart(id, content)]))) ==
            Split(m) + [ResultMessage(id, content)]
  {
    var parts, part := m.content.parts, ToolResultPart(id, content);
    NothingRemains(parts);
    NothingRemains(parts + [part]);
    PartsSnoc(parts, part);
    assert ResultsIn(parts) + [] == ResultsIn(parts) && ResultsIn(parts + [part]) + [] == ResultsIn(parts + [part]);
  }

  lemma ResultStarts(id: string, content: Option<Value>)
    ensures Split(AnthropicMessage(User, Arr([ToolResultPart(id, content)]))) == [ResultMessage(id, content)]
  {
    var none := AnthropicMessage(User, Arr([]));
    ResultJoins(none, id, content);
    assert Split(none) == [] && [] + [ToolResultPart(id, content)] == [ToolResultPart(id, content)];
    assert [] + [ResultMessage(id, content)] == [ResultMessage(id, content)];
  }

  lemma ReplaceLast(before: seq<AnthropicMessage>, m: AnthropicMessage, added: ChatMessage)
    requires before != [] && Split(m) == Split(before[|before| - 1]) + [added]
    ensures Splits(before[|before| - 1 := m]) == Splits(before) + [added]
  {
    var init, last := before[..|before| - 1], before[|before| - 1];
    assert before == init + [last] && before[|before| - 1 := m] == init + [m];
    SplitsSnoc(init, last);
    SplitsSnoc(init, m);
    Associates(Splits(init), Split(last), [added]);
  }

  /** Taking in a result and splitting again gives the result as a message of its own. */
  lemma ResultReturns(before: seq<AnthropicMessage>, m: ChatMessage)
    requires m.role == ToolRole && m.content.Some? && m.content.value != Null && m.toolCallId.Some? && m.toolCalls == None
    requires before != [] ==> OnlyResults(before[|before| - 1])
    ensures Splits(WithResult(before, ResultPart(m))) == Splits(before) + [m]
    ensures var after := WithResult(before, ResultPart(m)); after != [] && OnlyResults(after[|after| - 1])
  {
    var last, id := |before| - 1, m.toolCallId.value;
    assert m == ResultMessage(id, m.content);
    if before != [] && before[last].role == User && before[last].content.Arr? {
      var joined := AnthropicMessage(User, Arr(before[last].content.parts + [ToolResultPart(id, m.content)]));
      ResultJoins(before[last], id, m.content);
      ReplaceLast(before, joined, m);
    } else {
      ResultStarts(id, m.content);
      SplitsSnoc(before, AnthropicMessage(User, Arr([ToolResultPart(id, m.content)])));
    }
  }

  lemma UsesSnoc(canon: string -> string, calls: seq<ToolCall>, c: ToolCall)
    ensures UseParts(canon, calls + [c]) == UseParts(canon, calls) + [ToolUsePart(c.id, c.name, canon(c.arguments))]
  {
  }

  lemma {:induction false} UsesReturn(canon: string -> string, head: seq<Part>, calls: seq<ToolCall>)
    requires Canonical(canon, calls)
    ensures CallsIn(head + UseParts(canon, calls)) == CallsIn(head) + calls
    ensures TextsIn(head + UseParts(canon, calls)) == TextsIn(head)
    ensures ResultsIn(head + UseParts(canon, calls)) == ResultsIn(head)
  {
    if calls == [] {
      assert UseParts(canon, calls) == [] && head + [] == head && CallsIn(head) + [] == CallsIn(head);
    } else {
      var init, c := calls[..|calls| - 1], calls[|calls| - 1];
      var parts, part := head + UseParts(canon, init), ToolUsePart(c.id, c.name, c.arguments);
      UsesReturn(canon, head, init);
      UsesSnoc(canon, init, c);
      assert init + [c] == calls;
      assert head + UseParts(canon, calls) == parts + [part];
      OneMoreUse(parts, c);
      assert CallsIn(head) + init + [c] == CallsIn(head) + calls;
    }
  }

  lemma OneMoreUse(parts: seq<Part>, c: ToolCall)
    ensures var more := parts + [ToolUsePart(c.id, c.name, c.arguments)];
            CallsIn(more) == CallsIn(parts) + [c] && TextsIn(more) == TextsIn(parts) && ResultsIn(more) == ResultsIn(parts)
  {
    PartsSnoc(parts, ToolUsePart(c.id, c.name, c.arguments));
    assert TextsIn(parts) + [] == TextsIn(parts) && ResultsIn(parts) + [] == ResultsIn(parts);
  }

  lemma AssistantReturns(canon: string -> string, m: ChatMessage)
    requires m.role == Assistant && Normal(canon, m)
    ensures Split(AnthropicMessage(Assistant, AssistantContent(canon, m))) == [m]
  {
    var text := TextOf(m.content);
    assert UseParts(canon, []) == [] && TextParts(text) + [] == TextParts(text);
    if m.toolCalls.Some? {
      UsesReturn(canon, TextParts(text), m.toolCalls.value);
      assert TextParts(text) == [] + TextParts(text);
      if text != "" {
        PartsSnoc([], TextPart(Some(text)));
      }
      assert [] + m.toolCalls.value == m.toolCalls.value;
    }
  }

  /** The last message, if it can take in a result, holds only results. */
  predicate Tidy(ms: seq<AnthropicMessage>) {
    ms != [] ==> OnlyResults(ms[|ms| - 1])
  }

  lemma {:induction false} NormalReturns(canon: string -> string, ms: seq<ChatMessage>)
    requires AllNormal(canon, Conversation(ms))
    ensures Splits(ToAnthropic(canon, ms)) == Conversation(ms) && Tidy(ToAnthropic(canon, ms))
  {
    if ms == [] {
    } else {
      var init, m := ms[..|ms| - 1], ms[|ms| - 1];
      if m.role != System {
        assert forall k | 0 <= k < |Conversation(init)| :: Conversation(init)[k] == Conversation(ms)[k];
        assert Conversation(ms)[|Conversation(init)|] == m;
      }
      NormalReturns(canon, init);
      MessageReturns(canon, ToAnthropic(canon, init), m);
    }
  }

  lemma PushReturns(before: seq<AnthropicMessage>, pushed: AnthropicMessage, m: ChatMessage)
    requires Split(pushed) == [m] && OnlyResults(pushed)
    ensures Splits(before + [pushed]) == Splits(before) + [m] && Tidy(before + [pushed])
  {
    SplitsSnoc(before, pushed);
  }

  lemma PlainReturns(canon: string -> string, before: seq<AnthropicMessage>, m: ChatMessage)
    requires (m.role == User || m.role.Named?) && Normal(canon, m)
    ensures Splits(WithMessage(canon, before, m)) == Splits(before) + [m] && Tidy(WithMessage(canon, before, m))
  {
    assert m == ChatMessage(m.role, Some(m.content.value), None, None);
    PushReturns(before, AnthropicMessage(m.role, m.content.value), m);
  }

  lemma MessageReturns(canon: string -> string, before: seq<AnthropicMessage>, m: ChatMessage)
    requires m.role != System ==> Normal(canon, m)
    requires Tidy(before)
    ensures Splits(WithMessage(canon, before, m)) == if m.role == System then Splits(before) else Splits(before) + [m]
    ensures Tidy(WithMessage(canon, before, m))
  {
    match m.role
    case System =>
    case Assistant =>
      AssistantReturns(canon, m);
      PushReturns(before, AnthropicMessage(Assistant, AssistantContent(canon, m)), m);
    case ToolRole =>
      ResultReturns(before, m);
    case _ =>
      PlainReturns(canon, before, m);
  }

  // ----- Only normal conversations return -----

  /** Arguments that have been printed are canonical. */
  ghost predicate Prints(canon: string -> string) {
    forall s: string :: canon(canon(s)) == canon(s)
  }

  /** What the converter makes of anything but array contents of users and others. */
  predicate Regular(canon: string -> string, m: AnthropicMessage) {
    match m.role
    case Assistant =>
      m.content.Str? || (m.content.Arr? && AssistantParts(canon, m.content.parts))
    case User => m.content.Arr? ==> forall k | 0 <= k < |m.content.parts| :: m.content.parts[k].ToolResultPart?
    case Named(_) => !m.content.Arr?
    case _ => false
  }

  predicate AssistantParts(canon: string -> string, parts: seq<Part>) {
    forall k | 0 <= k < |parts| ::
      match parts[k]
      case TextPart(text) => text.Some? && text.value != "" && k == 0
      case ToolUsePart(_, _, input) => canon(input) == input
      case _ => false
  }

  predicate AllRegular(canon: string -> string, ms: seq<AnthropicMessage>) {
    forall k | 0 <= k < |ms| :: Regular(canon, ms[k])
  }

  /** Apart from tool messages no message has an array as its content. */
  predicate NoArray(m: ChatMessage) {
    m.role != ToolRole ==> !(m.content.Some? && m.content.value.Arr?)
  }

  predicate NoArrays(ms: seq<ChatMessage>) {
    forall k | 0 <= k < |ms| :: NoArray(ms[k])
  }

  lemma {:induction false} ResultsHaveTheirForm(parts: seq<Part>)
    ensures forall k | 0 <= k < |ResultsIn(parts)| ::
              var m := ResultsIn(parts)[k];
              m.role == ToolRole && m.toolCalls == None && m.toolCallId.Some? && m.content.Some? && m.content.value != Null
  {
    if parts == [] {
    } else {
      ResultsHaveTheirForm(parts[..|parts| - 1]);
    }
  }

  lemma {:induction false} SplitsHaveNoArrays(ms: seq<AnthropicMessage>)
    ensures NoArrays(Splits(ms))
  {
    if ms == [] {
    } else {
      var m := ms[|ms| - 1];
      SplitsHaveNoArrays(ms[..|ms| - 1]);
      if m.content.Arr? {
        ResultsHaveTheirForm(m.content.parts);
      }
    }
  }

  lemma AssistantContentIsRegular(canon: string -> string, m: ChatMessage)
    requires Prints(canon)
    ensures Regular(canon, AnthropicMessage(Assistant, AssistantContent(canon, m)))
  {
    var calls := m.toolCalls.GetOr([]);
    var parts := TextParts(TextOf(m.content)) + UseParts(canon, calls);
    forall k | 0 <= k < |calls|
      ensures canon(UseParts(canon, calls)[k].input) == UseParts(canon, calls)[k].input
    {
      assert canon(canon(calls[k].arguments)) == canon(calls[k].arguments);
    }
    assert AssistantParts(canon, parts);
  }

  lemma MessageIsRegular(canon: string -> string, before: seq<AnthropicMessage>, m: ChatMessage)
    requires Prints(canon) && AllRegular(canon, before) && (m.role != System ==> NoArray(m))
    ensures AllRegular(canon, WithMessage(canon, before, m))
  {
    match m.role
    case Assistant => AssistantContentIsRegular(canon, m);
    case _ =>
  }

  lemma {:induction false} ConvertedIsRegular(canon: string -> string, ms: seq<ChatMessage>)
    requires Prints(canon) && NoArrays(Conversation(ms))
    ensures AllRegular(canon, ToAnthropic(canon, ms))
  {
    if ms == [] {
    } else {
      var init, m := ms[..|ms| - 1], ms[|ms| - 1];
      if m.role != System {
        assert forall k | 0 <= k < |Conversation(init)| :: Conversation(init)[k] == Conversation(ms)[k];
        assert Conversation(ms)[|Conversation(init)|] == m;
      }
      ConvertedIsRegular(canon, init);
      MessageIsRegular(canon, ToAnthropic(canon, init), m);
    }
  }

  lemma {:induction false} AssistantSplits(canon: string -> string, parts: seq<Part>)
    requires AssistantParts(canon, parts)
    ensures ResultsIn(parts) == [] && Canonical(canon, CallsIn(parts))
    ensures TextsIn(parts) == [] || (|TextsIn(parts)| == 1 && TextsIn(parts)[0] != "")
    ensures |parts| > 0 && !parts[0].TextPart? ==> TextsIn(parts) == []
  {
    if parts == [] {
    } else {
      var init := parts[..|parts| - 1];
      assert forall k | 0 <= k < |init| :: init[k] == parts[k];
      AssistantSplits(canon, init);
      if |parts| == 1 {
        assert init == [];
      }
    }
  }

  lemma SplitIsNormal(canon: string -> string, m: AnthropicMessage)
    requires Regular(canon, m)
    ensures AllNormal(canon, Split(m))
  {
    if m.content.Arr? {
      ResultsHaveTheirForm(m.content.parts);
      if m.role == User {
        NothingRemains(m.content.parts);
      } else {
        AssistantSplits(canon, m.content.parts);
      }
    }
  }

  lemma {:induction false} SplitsAreNormal(canon: string -> string, ms: seq<AnthropicMessage>)
    requires AllRegular(canon, ms)
    ensures AllNormal(canon, Splits(ms))
  {
    if ms == [] {
    } else {
      assert forall k | 0 <= k < |ms| - 1 :: ms[..|ms| - 1][k] == ms[k];
      SplitsAreNormal(canon, ms[..|ms| - 1]);
      SplitIsNormal(canon, ms[|ms| - 1]);
    }
  }

  // ----- The round trip -----

  /** One system message with the texts of all system messages, unless there is nothing in them. */
  function Head(ms: seq<ChatMessage>): seq<ChatMessage> {
    match HeadText(ms)
    case Some(text) => if text == "" then [] else [ChatMessage(System, Some(Str(text)), None, None)]
    case None => []
  }

  /** What comes back from Anthropic. */
  function Returned(canon: string -> string, ms: seq<ChatMessage>): seq<ChatMessage> {
    SystemMessage(SystemPrompt(ms)) + Splits(ToAnthropic(canon, ms))
  }

  /**
   * An OpenAI request converted to Anthropic and back is the same conversation after one system message with all
   * system texts, exactly when every message of the conversation is in normal form.
   */
  lemma RoundTrip(canon: string -> string, ms: seq<ChatMessage>)
    requires Prints(canon)
    ensures AllNormal(canon, Conversation(ms)) <==> Returned(canon, ms) == Head(ms) + Conversation(ms)
    ensures Head(ms) <= Returned(canon, ms)
  {
    var a, b, head := Splits(ToAnthropic(canon, ms)), Conversation(ms), Head(ms);
    SystemPromptIsHead(ms);
    assert Returned(canon, ms) == head + a;
    if head + a == head + b {
      assert a == (head + a)[|head|..] && b == (head + b)[|head|..];
      SplitsHaveNoArrays(ToAnthropic(canon, ms));
      ConvertedIsRegular(canon, ms);
      SplitsAreNormal(canon, ToAnthropic(canon, ms));
    }
    if AllNormal(canon, b) {
      NormalReturns(canon, ms);
    }
  }

  /** The two converters one after the other. */
  method ThereAndBack(canon: string -> string, ms: seq<ChatMessage>) returns (back: seq<ChatMessage>)
    ensures back == Head(ms) + Splits(ToAnthropic(canon, ms))
    ensures AllNormal(canon, Conversation(ms)) ==> back == Head(ms) + Conversation(ms)
  {
    var system, messages := OpenAIToAnthropic(canon, ms);
    back := AnthropicToOpenAI(system, messages);
    if AllNormal(canon, Conversation(ms)) {
      NormalReturns(canon, ms);
    }
  }
}
