/** OpenAI requests as Anthropic requests and back: the message loops of both converters. */
module RequestConversion {
  import opened Wrappers
  import opened Text
  import opened ChatModel

  // ----- From OpenAI to Anthropic -----

  /**
   * `canon` stands for parsing a string as JSON and printing it again; what does not parse becomes an empty object.
   */
  function UseParts(canon: string -> string, calls: seq<ToolCall>): seq<Part> {
    seq(|calls|, k requires 0 <= k < |calls| => ToolUsePart(calls[k].id, calls[k].name, canon(calls[k].arguments)))
  }

  function TextParts(text: string): seq<Part> {
    if text == "" then [] else [TextPart(Some(text))]
  }

  function AssistantContent(canon: string -> string, m: ChatMessage): Value {
    var parts := TextParts(TextOf(m.content)) + UseParts(canon, m.toolCalls.GetOr([]));
    if |parts| == 1 && m.toolCalls.None? then m.content.GetOr(EMPTY_STRING)
    else if parts == [] then EMPTY_STRING
    else Arr(parts)
  }

  function ResultPart(m: ChatMessage): Part {
    ToolResultPart(m.toolCallId.GetOr(""), Some(m.content.GetOr(EMPTY_STRING)))
  }

  /** A result joins a user message with array content directly before it. */
  function WithResult(before: seq<AnthropicMessage>, part: Part): seq<AnthropicMessage> {
    var last := |before| - 1;
    if before != [] && before[last].role == User && before[last].content.Arr?
    then before[last := AnthropicMessage(User, Arr(before[last].content.parts + [part]))]
    else before + [AnthropicMessage(User, Arr([part]))]
  }

  function WithMessage(canon: string -> string, before: seq<AnthropicMessage>, m: ChatMessage): seq<AnthropicMessage> {
    match m.role
    case System => before
    case Assistant => before + [AnthropicMessage(Assistant, AssistantContent(canon, m))]
    case ToolRole => WithResult(before, ResultPart(m))
    case _ => before + [AnthropicMessage(m.role, m.content.GetOr(EMPTY_STRING))]
  }

  function ToAnthropic(canon: string -> string, ms: seq<ChatMessage>): seq<AnthropicMessage> {
    if ms == [] then [] else WithMessage(canon, ToAnthropic(canon, ms[..|ms| - 1]), ms[|ms| - 1])
  }

  function SystemTexts(ms: seq<ChatMessage>): seq<string> {
    if ms == [] then []
    else
      var m := ms[|ms| - 1];
      if m.role == System then SystemTexts(ms[..|ms| - 1]) + [TextOf(m.content)] else SystemTexts(ms[..|ms| - 1])
  }

  /** The system prompt, when there is any system message. */
  function SystemPrompt(ms: seq<ChatMessage>): Option<string> {
    if SystemTexts(ms) == [] then None else Some(Join(SystemTexts(ms), "\n"))
  }

  /** The texts of the system messages, one below the other. */
  function HeadText(ms: seq<ChatMessage>): Option<string> {
    if ms == [] then None
    else
      var before, m := HeadText(ms[..|ms| - 1]), ms[|ms| - 1];
      if m.role != System then before
      else
        var text := match m.content case Some(Str(s)) => s case _ => "";
        match before
        case Some(above) => Some(above + "\n" + text)
        case None => Some(text)
  }

  /** The system prompt is the texts of the system messages, one below the other, if there is any. */
  lemma {:induction false} SystemPromptIsHead(ms: seq<ChatMessage>)
    ensures SystemPrompt(ms) == HeadText(ms)
  {
    if ms == [] {
    } else {
      var init, m := ms[..|ms| - 1], ms[|ms| - 1];
      SystemPromptIsHead(init);
      if m.role == System && SystemTexts(init) != [] {
        JoinSnoc(SystemTexts(init), TextOf(m.content), "\n");
      }
    }
  }

  method OpenAIToAnthropic(canon: string -> string, ms: seq<ChatMessage>)
    returns (system: Option<string>, messages: seq<AnthropicMessage>)
    ensures system == SystemPrompt(ms) && messages == ToAnthropic(canon, ms)
    ensures system == HeadText(ms) && (system.None? <==> forall k | 0 <= k < |ms| :: ms[k].role != System)
  {
    var systemParts: seq<string> := [];
    messages := [];
    for i := 0 to |ms|
      invariant systemParts == SystemTexts(ms[..i]) && messages == ToAnthropic(canon, ms[..i])
    {
      assert ms[..i + 1][..i] == ms[..i];
      var m := ms[i];
      match m.role {
        case System =>
          systemParts := systemParts + [TextOf(m.content)];
        case Assistant =>
          var content := BuildContent(canon, m);
          messages := messages + [AnthropicMessage(Assistant, content)];
        case ToolRole =>
          var last := |messages| - 1;
          if messages != [] && messages[last].role == User && messages[last].content.Arr? {
            var parts := messages[last].content.parts + [ResultPart(m)];
            messages := messages[last := AnthropicMessage(User, Arr(parts))];
          } else {
            messages := messages + [AnthropicMessage(User, Arr([ResultPart(m)]))];
          }
        case _ =>
          messages := messages + [AnthropicMessage(m.role, m.content.GetOr(EMPTY_STRING))];
      }
    }
    assert ms[..|ms|] == ms;
    system := if systemParts == [] then None else Some(Join(systemParts, "\n"));
    SystemPromptIsHead(ms);
    NoSystemNoHead(ms);
  }

  lemma {:induction false} NoSystemNoHead(ms: seq<ChatMessage>)
    ensures HeadText(ms).None? <==> forall k | 0 <= k < |ms| :: ms[k].role != System
  {
    if ms == [] {
    } else {
      var init := ms[..|ms| - 1];
      NoSystemNoHead(init);
      assert forall k | 0 <= k < |init| :: init[k] == ms[k];
    }
  }

  method BuildContent(canon: string -> string, m: ChatMessage) returns (content: Value)
    ensures content == AssistantContent(canon, m)
  {
    var parts := [];
    var text := TextOf(m.content);
    if text != "" {
      parts := parts + [TextPart(Some(text))];
    }
    ghost var head := parts;
    if m.toolCalls.Some? {
      var calls := m.toolCalls.value;
      for i := 0 to |calls|
        invariant parts == head + UseParts(canon, calls[..i])
      {
        parts := parts + [ToolUsePart(calls[i].id, calls[i].name, canon(calls[i].arguments))];
        assert UseParts(canon, calls[..i + 1]) ==
               UseParts(canon, calls[..i]) + [ToolUsePart(calls[i].id, calls[i].name, canon(calls[i].arguments))];
      }
      assert calls[..|calls|] == calls;
    } else {
      assert UseParts(canon, []) == [] && head + [] == head;
    }
    content :=
      if |parts| == 1 && m.toolCalls.None? then m.content.GetOr(EMPTY_STRING)
      else if parts == [] then EMPTY_STRING
      else Arr(parts);
  }

  // ----- From Anthropic to OpenAI -----

  function TextsIn(parts: seq<Part>): seq<string> {
    if parts == [] then []
    else
      TextsIn(parts[..|parts| - 1])
      + match parts[|parts| - 1]
        case TextPart(Some(text)) => [text]
        case OtherPart(Some(text)) => [text]
        case _ => []
  }

  function CallsIn(parts: seq<Part>): seq<ToolCall> {
    if parts == [] then []
    else
      CallsIn(parts[..|parts| - 1])
      + match parts[|parts| - 1]
        case ToolUsePart(id, name, input) => [ToolCall(id, name, input)]
        case _ => []
  }

  function ResultMessage(id: string, content: Option<Value>): ChatMessage {
    var value := match content case Some(Null) => EMPTY_STRING case Some(v) => v case None => EMPTY_STRING;
    ChatMessage(ToolRole, Some(value), None, Some(id))
  }

  function ResultsIn(parts: seq<Part>): seq<ChatMessage> {
    if parts == [] then []
    else
      ResultsIn(parts[..|parts| - 1])
      + match parts[|parts| - 1]
        case ToolResultPart(id, content) => [ResultMessage(id, content)]
        case _ => []
  }

  /** The message that is left of an array content when its tool results are taken out, if anything is left. */
  function RemainingMessage(role: Role, parts: seq<Part>): seq<ChatMessage> {
    var texts, calls := TextsIn(parts), CallsIn(parts);
    if texts == [] && calls == [] then []
    else
      var text := Join(texts, "\n");
      [ChatMessage(role, if text == "" then None else Some(Str(text)), if calls == [] then None else Some(calls), None)]
  }

  function Split(m: AnthropicMessage): seq<ChatMessage> {
    match m.content
    case Arr(parts) => ResultsIn(parts) + RemainingMessage(m.role, parts)
    case _ => [ChatMessage(m.role, Some(m.content), None, None)]
  }

  /** The texts of an array, one below the other. */
  function TextSaid(parts: seq<Part>): Option<string> {
    if parts == [] then None
    else
      var before := TextSaid(parts[..|parts| - 1]);
      match parts[|parts| - 1]
      case TextPart(Some(text)) => if before.Some? then Some(before.value + "\n" + text) else Some(text)
      case OtherPart(Some(text)) => if before.Some? then Some(before.value + "\n" + text) else Some(text)
      case _ => before
  }

  lemma {:induction false} TextsAreSaid(parts: seq<Part>)
    ensures TextSaid(parts) == if TextsIn(parts) == [] then None else Some(Join(TextsIn(parts), "\n"))
  {
    if parts == [] {
    } else {
      var init := parts[..|parts| - 1];
      TextsAreSaid(init);
      assert TextsIn(init) + [] == TextsIn(init);
      match parts[|parts| - 1] {
        case TextPart(Some(text)) => OneMoreText(TextsIn(init), text);
        case OtherPart(Some(text)) => OneMoreText(TextsIn(init), text);
        case _ =>
      }
    }
  }

  lemma OneMoreText(texts: seq<string>, text: string)
    ensures texts != [] ==> Join(texts + [text], "\n") == Join(texts, "\n") + "\n" + text
    ensures Join([text], "\n") == text && [] + [text] == [text]
  {
    if texts != [] {
      JoinSnoc(texts, text, "\n");
    }
  }

  /** What is left of an array beside its tool results is one message, with its texts one below the other. */
  lemma SplitSays(role: Role, parts: seq<Part>)
    ensures Split(AnthropicMessage(role, Arr(parts))) ==
            ResultsIn(parts)
            + (if TextSaid(parts).None? && CallsIn(parts) == [] then []
               else [ChatMessage(role,
                                 match TextSaid(parts)
                                 case Some(t) => if t == "" then None else Some(Str(t))
                                 case None => None,
                                 if CallsIn(parts) == [] then None else Some(CallsIn(parts)), None)])
  {
    TextsAreSaid(parts);
  }

  function Splits(ms: seq<AnthropicMessage>): seq<ChatMessage> {
    if ms == [] then [] else Splits(ms[..|ms| - 1]) + Split(ms[|ms| - 1])
  }

  function SystemMessage(system: Option<string>): seq<ChatMessage> {
    match system
    case Some(text) => if text == "" then [] else [ChatMessage(System, Some(Str(text)), None, None)]
    case None => []
  }

  /** The system prompt is the text that `openai_to_anthropic` makes. */
  method AnthropicToOpenAI(system: Option<string>, ms: seq<AnthropicMessage>) returns (messages: seq<ChatMessage>)
    ensures messages == SystemMessage(system) + Splits(ms)
  {
    messages := [];
    if system.Some? && system.value != "" {
      messages := messages + [ChatMessage(System, Some(Str(system.value)), None, None)];
    }
    assert messages + [] == messages;
    for i := 0 to |ms|
      invariant messages == SystemMessage(system) + Splits(ms[..i])
    {
      assert ms[..i + 1][..i] == ms[..i];
      messages := PushSplit(messages, ms[i]);
      Associates(SystemMessage(system), Splits(ms[..i]), Split(ms[i]));
    }
    assert ms[..|ms|] == ms;
  }

  lemma Associates(a: seq<ChatMessage>, b: seq<ChatMessage>, c: seq<ChatMessage>)
    ensures a + b + c == a + (b + c)
  {
  }

  method PushSplit(before: seq<ChatMessage>, m: AnthropicMessage) returns (messages: seq<ChatMessage>)
    ensures messages == before + Split(m)
  {
    messages := before;
    if m.content.Arr? {
      var more := SplitParts(m.role, m.content.parts);
      messages := messages + more;
    } else {
      messages := messages + [ChatMessage(m.role, Some(m.content), None, None)];
    }
  }

  method SplitParts(role: Role, parts: seq<Part>) returns (messages: seq<ChatMessage>)
    ensures messages == Split(AnthropicMessage(role, Arr(parts)))
  {
    var texts, calls, results := [], [], [];
    for i := 0 to |parts|
      invariant texts == TextsIn(parts[..i]) && calls == CallsIn(parts[..i]) && results == ResultsIn(parts[..i])
    {
      assert parts[..i + 1][..i] == parts[..i];
      match parts[i] {
        case TextPart(text) =>
          if text.Some? {
            texts := texts + [text.value];
          }
        case ToolUsePart(id, name, input) =>
          calls := calls + [ToolCall(id, name, input)];
        case ToolResultPart(id, content) =>
          results := results + [ResultMessage(id, content)];
        case OtherPart(text) =>
          if text.Some? {
            texts := texts + [text.value];
          }
        case ImagePart =>
      }
    }
    assert parts[..|parts|] == parts;
    messages := results;
    if texts != [] || calls != [] {
      var text := Join(texts, "\n");
      messages := messages + [ChatMessage(role, if text == "" then None else Some(Str(text)),
                                          if calls == [] then None else Some(calls), None)];
    } else {
      assert results + [] == results;
    }
  }
}
