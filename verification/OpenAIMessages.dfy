/** OpenAI messages as unified messages: tool messages are gathered into user messages. */
module OpenAIMessages {
  import opened Wrappers
  import opened Text
  import opened Embedding
  import opened KiroModel
  import opened KiroPasses
  import opened KiroPayload
  import opened KiroOrder
  import opened KiroArrival
  import opened KiroConservation

  /** A part of an array content; other parts, and malformed ones, are passed over. */
  datatype ContentPart = TextPart(text: string) | ImagePart(url: string) | Unusable

  /** The content of a message: a string, an array with its JSON text, or the JSON text of something else. */
  datatype JsonContent = Plain(text: string) | Parts(parts: seq<ContentPart>, json: string) | OtherJson(json: string)

  datatype ChatRole = System | Tool | Chat(role: Role)

  datatype ChatMessage = ChatMessage(
    role: ChatRole, content: Option<JsonContent>, toolCalls: Option<seq<ToolCall>>, toolCallId: Option<string>)

  function ConvertParts(parts: seq<ContentPart>): seq<Block> {
    if parts == [] then []
    else
      var init := ConvertParts(parts[..|parts| - 1]);
      match parts[|parts| - 1]
      case TextPart(text) => init + [TextBlock(text)]
      case ImagePart(url) => init + [ImageBlock(url)]
      case Unusable => init
  }

  function ConvertContent(c: Option<JsonContent>): Content {
    match c
    case Some(Plain(text)) => Text(text)
    case Some(Parts(parts, _)) => Blocks(ConvertParts(parts))
    case Some(OtherJson(json)) => Text(json)
    case None => Text("")
  }

  function Raw(c: Option<JsonContent>): string {
    match c
    case Some(Plain(text)) => text
    case Some(Parts(_, json)) => json
    case Some(OtherJson(json)) => json
    case None => ""
  }

  /** The result in a tool message; only a string content is taken over. */
  function ResultOf(m: ChatMessage): ToolResult {
    ToolResult(m.toolCallId.GetOr(""), match m.content case Some(Plain(text)) => text case _ => EMPTY_RESULT)
  }

  /** Any other message. No part of an OpenAI content holds a tool result. */
  function Converted(m: ChatMessage): Message
    requires m.role.Chat?
  {
    Message(m.role.role, ConvertContent(m.content), if m.role.role == Assistant then m.toolCalls else None, None)
  }

  function Pending(results: seq<ToolResult>): seq<Message> {
    if results == [] then [] else [Message(User, Text(""), None, Some(results))]
  }

  function SystemText(ms: seq<ChatMessage>): string {
    if ms == [] then ""
    else
      var m := ms[|ms| - 1];
      SystemText(ms[..|ms| - 1]) + if m.role == System then Raw(m.content) + "\n" else ""
  }

  function Conversation(ms: seq<ChatMessage>): seq<ChatMessage> {
    if ms == [] then []
    else
      var m := ms[|ms| - 1];
      if m.role == System then Conversation(ms[..|ms| - 1]) else Conversation(ms[..|ms| - 1]) + [m]
  }

  /** The messages finished so far, and the results that wait for the next message. */
  datatype Scan = Scan(done: seq<Message>, pending: seq<ToolResult>)

  function Scanned(ms: seq<ChatMessage>): Scan {
    if ms == [] then Scan([], [])
    else
      var s, m := Scanned(ms[..|ms| - 1]), ms[|ms| - 1];
      match m.role
      case Tool => Scan(s.done, s.pending + [ResultOf(m)])
      case Chat(_) => Scan(s.done + Pending(s.pending) + [Converted(m)], [])
      case System => s
  }

  function Unified(ms: seq<ChatMessage>): seq<Message> {
    var s := Scanned(Conversation(ms));
    s.done + Pending(s.pending)
  }

  method ConvertOpenAIMessages(ms: seq<ChatMessage>) returns (systemPrompt: string, unified: seq<Message>)
    ensures systemPrompt == Trim(SystemText(ms)) && unified == Unified(ms)
  {
    systemPrompt := "";
    var others := [];
    for i := 0 to |ms|
      invariant systemPrompt == SystemText(ms[..i]) && others == Conversation(ms[..i])
    {
      assert ms[..i + 1][..i] == ms[..i];
      if ms[i].role == System {
        systemPrompt := systemPrompt + Raw(ms[i].content);
        systemPrompt := systemPrompt + "\n";
        ConcatAssociative(SystemText(ms[..i]), Raw(ms[i].content), "\n");
      } else {
        others := others + [ms[i]];
        assert SystemText(ms[..i]) + "" == SystemText(ms[..i]);
      }
    }
    assert ms[..|ms|] == ms;
    systemPrompt := Trim(systemPrompt);
    unified := GatherResults(others);
  }

  method GatherResults(ms: seq<ChatMessage>) returns (unified: seq<Message>)
    ensures unified == Scanned(ms).done + Pending(Scanned(ms).pending)
  {
    unified := [];
    var pending: seq<ToolResult> := [];
    for i := 0 to |ms|
      invariant Scanned(ms[..i]) == Scan(unified, pending)
    {
      assert ms[..i + 1][..i] == ms[..i];
      var m := ms[i];
      match m.role
      case Tool =>
        pending := pending + [ResultOf(m)];
      case Chat(_) =>
        if pending != [] {
          unified := unified + [Message(User, Text(""), None, Some(pending))];
          pending := [];
        } else {
          assert unified + [] == unified;
        }
        unified := unified + [Converted(m)];
      case System =>
    }
    assert ms[..|ms|] == ms;
    if pending != [] {
      unified := unified + [Message(User, Text(""), None, Some(pending))];
    } else {
      assert unified + [] == unified;
    }
  }

  // ----- What the conversion keeps -----

  /** The contents of system messages, each with a newline behind it; a content that is no string is JSON text. */
  function SystemLines(ms: seq<ChatMessage>): seq<string> {
    if ms == [] then []
    else
      SystemLines(ms[..|ms| - 1])
      + match ms[|ms| - 1]
        case ChatMessage(System, Some(Plain(text)), _, _) => [text + "\n"]
        case ChatMessage(System, Some(Parts(_, json)), _, _) => [json + "\n"]
        case ChatMessage(System, Some(OtherJson(json)), _, _) => [json + "\n"]
        case ChatMessage(System, None, _, _) => ["\n"]
        case _ => []
  }

  /** The system prompt, before it is trimmed: all system messages, wherever they stand, in order. */
  lemma {:induction false} SystemTextIsLines(ms: seq<ChatMessage>)
    ensures SystemText(ms) == Concat(SystemLines(ms))
  {
    if ms == [] {
    } else {
      var init, m := ms[..|ms| - 1], ms[|ms| - 1];
      SystemTextIsLines(init);
      assert SystemText(init) + "" == SystemText(init) && SystemLines(init) + [] == SystemLines(init);
      if m.role == System {
        assert "" + "\n" == "\n";
        ConcatSnoc(SystemLines(init), Raw(m.content) + "\n");
      }
    }
  }

  /** The texts of a content in order; empty ones are nothing. */
  function TextsIn(c: Option<JsonContent>): seq<string> {
    match c
    case Some(Plain(text)) => Lone(text)
    case Some(Parts(parts, _)) => TextsOfParts(parts)
    case Some(OtherJson(json)) => Lone(json)
    case None => []
  }

  function TextsOfParts(parts: seq<ContentPart>): seq<string> {
    if parts == [] then []
    else
      TextsOfParts(parts[..|parts| - 1])
      + match parts[|parts| - 1] case TextPart(text) => Lone(text) case _ => []
  }

  /** What a tool message says: its content when that is a string with something in it. */
  function Answer(m: ChatMessage): string {
    match m.content
    case Some(Plain(text)) => if text == "" then "(empty result)" else text
    case _ => "(empty result)"
  }

  /** What it says, behind the identifier of its call, if there is one. */
  function AnswerSaid(m: ChatMessage): seq<string> {
    match m.toolCallId
    case Some(id) => Lone(id) + [Answer(m)]
    case None => [Answer(m)]
  }

  /** The texts of users and assistants, the calls of assistants and the results of tools, in order. */
  function ChatPieces(ms: seq<ChatMessage>): seq<string> {
    if ms == [] then []
    else
      var m := ms[|ms| - 1];
      ChatPieces(ms[..|ms| - 1])
      + match m.role
        case Tool => AnswerSaid(m)
        case Chat(User) => TextsIn(m.content)
        case Chat(Assistant) => TextsIn(m.content) + Flat(CallPieces(m.toolCalls.GetOr([])))
        case _ => []
  }

  /** The texts of users and assistants alone. */
  function ChatTexts(ms: seq<ChatMessage>): seq<string> {
    if ms == [] then []
    else
      var m := ms[|ms| - 1];
      ChatTexts(ms[..|ms| - 1])
      + match m.role
        case Chat(User) => TextsIn(m.content)
        case Chat(Assistant) => TextsIn(m.content)
        case _ => []
  }

  lemma AllPiecesSnoc(ms: seq<Message>, m: Message)
    ensures AllPieces(ms + [m]) == AllPieces(ms) + Pieces(m) && AllTexts(ms + [m]) == AllTexts(ms) + SpokenTexts(m)
  {
    assert (ms + [m])[..|ms|] == ms;
  }

  lemma PendingPieces(ms: seq<Message>, results: seq<ToolResult>)
    ensures AllPieces(ms + Pending(results)) == AllPieces(ms) + Flat(ResultPieces(results))
    ensures AllTexts(ms + Pending(results)) == AllTexts(ms)
  {
    NoPieces();
    assert AllTexts(ms) + [] == AllTexts(ms);
    if results == [] {
      assert ms + [] == ms && AllPieces(ms) + [] == AllPieces(ms);
    } else {
      AllPiecesSnoc(ms, Pending(results)[0]);
      assert [] + [] + Flat(ResultPieces(results)) == Flat(ResultPieces(results));
    }
  }

  function ScanPieces(s: Scan): seq<string> {
    AllPieces(s.done) + Flat(ResultPieces(s.pending))
  }

  lemma ToolAddsPieces(s: Scan, m: ChatMessage)
    ensures ScanPieces(Scan(s.done, s.pending + [ResultOf(m)])) == ScanPieces(s) + AnswerSaid(m)
  {
    ResultPiecesSnoc(s.pending, ResultOf(m));
    assert [] + [Answer(m)] == [Answer(m)];
    Associates3(AllPieces(s.done), Flat(ResultPieces(s.pending)), AnswerSaid(m));
  }

  lemma Associates3(a: seq<string>, b: seq<string>, c: seq<string>)
    ensures a + (b + c) == a + b + c
  {
  }

  lemma {:induction false} PartsKeepTexts(parts: seq<ContentPart>)
    ensures BlocksPieces(ConvertParts(parts)) == TextsOfParts(parts)
    ensures BlocksText(ConvertParts(parts)) == Concat(TextsOfParts(parts))
  {
    if parts == [] {
    } else {
      var init := ConvertParts(parts[..|parts| - 1]);
      PartsKeepTexts(parts[..|parts| - 1]);
      assert BlocksPieces(init) + [] == BlocksPieces(init) && BlocksText(init) + "" == BlocksText(init);
      match parts[|parts| - 1] {
        case TextPart(text) =>
          assert (init + [TextBlock(text)])[..|init|] == init;
          ConcatAppend(TextsOfParts(parts[..|parts| - 1]), Lone(text));
          LoneText(text);
        case ImagePart(url) => assert (init + [ImageBlock(url)])[..|init|] == init;
        case Unusable =>
      }
    }
  }

  lemma ContentKeepsTexts(c: Option<JsonContent>)
    ensures TextPieces(ConvertContent(c)) == TextsIn(c) && TextOf(ConvertContent(c)) == Concat(TextsIn(c))
  {
    if c.Some? && !c.value.Parts? {
      LoneText(TextOf(ConvertContent(c)));
    }
    if c.Some? && c.value.Parts? {
      PartsKeepTexts(c.value.parts);
    }
  }

  /** What one message that is no tool message adds. */
  function Said(m: ChatMessage): seq<string>
    requires m.role.Chat?
  {
    match m.role.role
    case User => TextsIn(m.content)
    case Assistant => TextsIn(m.content) + Flat(CallPieces(m.toolCalls.GetOr([])))
    case Other(_) => []
  }

  lemma ConvertedSays(m: ChatMessage)
    requires m.role.Chat?
    ensures Pieces(Converted(m)) == Said(m)
    ensures SpokenTexts(Converted(m)) == if m.role.role.Other? then [] else TextsIn(m.content)
  {
    NoPieces();
    ContentKeepsTexts(m.content);
    var texts, calls := TextsIn(m.content), Flat(CallPieces(m.toolCalls.GetOr([])));
    assert texts + [] + [] == texts && texts + calls + [] == texts + calls;
  }

  lemma ChatAddsPieces(s: Scan, m: ChatMessage)
    requires m.role.Chat?
    ensures ScanPieces(Scan(s.done + Pending(s.pending) + [Converted(m)], [])) == ScanPieces(s) + Said(m)
    ensures AllTexts(s.done + Pending(s.pending) + [Converted(m)]) == AllTexts(s.done) + SpokenTexts(Converted(m))
  {
    NoPieces();
    PendingPieces(s.done, s.pending);
    AllPiecesSnoc(s.done + Pending(s.pending), Converted(m));
    ConvertedSays(m);
    assert ScanPieces(s) + Said(m) + [] == ScanPieces(s) + Said(m);
  }

  lemma {:induction false} ScanKeepsPieces(ms: seq<ChatMessage>)
    ensures ScanPieces(Scanned(ms)) == ChatPieces(ms) && AllTexts(Scanned(ms).done) == ChatTexts(ms)
  {
    if ms == [] {
      NoPieces();
    } else {
      var s, m := Scanned(ms[..|ms| - 1]), ms[|ms| - 1];
      var pieces, texts := ChatPieces(ms[..|ms| - 1]), ChatTexts(ms[..|ms| - 1]);
      ScanKeepsPieces(ms[..|ms| - 1]);
      assert pieces + [] == pieces && texts + [] == texts;
      match m.role {
        case Tool => ToolAddsPieces(s, m);
        case Chat(_) =>
          ChatAddsPieces(s, m);
          ConvertedSays(m);
        case System =>
      }
    }
  }

  /** Every text, call and result of the conversation is in the unified messages, in order. */
  lemma ConversionKeepsPieces(ms: seq<ChatMessage>)
    ensures AllPieces(Unified(ms)) == ChatPieces(Conversation(ms)) && AllTexts(Unified(ms)) == ChatTexts(Conversation(ms))
  {
    var s := Scanned(Conversation(ms));
    PendingPieces(s.done, s.pending);
    ScanKeepsPieces(Conversation(ms));
  }

  /** System messages have no part in that. */
  lemma {:induction false} WithoutSystem(ms: seq<ChatMessage>)
    ensures ChatPieces(Conversation(ms)) == ChatPieces(ms) && ChatTexts(Conversation(ms)) == ChatTexts(ms)
  {
    if ms == [] {
    } else {
      var init, m := ms[..|ms| - 1], ms[|ms| - 1];
      WithoutSystem(init);
      assert (Conversation(init) + [m])[..|Conversation(init)|] == Conversation(init);
      assert ChatPieces(init) + [] == ChatPieces(init) && ChatTexts(init) + [] == ChatTexts(init);
    }
  }

  lemma {:induction false} PartsArePlain(parts: seq<ContentPart>)
    ensures forall k | 0 <= k < |ConvertParts(parts)| :: ConvertParts(parts)[k].TextBlock? || ConvertParts(parts)[k].ImageBlock?
  {
    if parts == [] {
    } else {
      PartsArePlain(parts[..|parts| - 1]);
    }
  }

  /** Results only in lists of users, calls only in lists of assistants, and neither in the content. */
  predicate Plainly(m: Message) {
    && !HasResultBlock(m.content) && !HasUseBlock(m.content) && UserResults(m)
    && (m.role != Assistant ==> !HasCalls(m))
  }

  predicate AllPlainly(ms: seq<Message>) {
    forall k | 0 <= k < |ms| :: Plainly(ms[k])
  }

  lemma ConvertedPlainly(m: ChatMessage)
    requires m.role.Chat?
    ensures Plainly(Converted(m))
  {
    if m.content.Some? && m.content.value.Parts? {
      PartsArePlain(m.content.value.parts);
    }
  }

  /** Two messages with results are never neighbours: results in a row become one message. */
  predicate ResultsApart(ms: seq<Message>) {
    |ms| > 1 ==> ResultsApart(ms[..|ms| - 1]) && !(HasResults(ms[|ms| - 2]) && HasResults(ms[|ms| - 1]))
  }

  lemma ApartSnoc(ms: seq<Message>, m: Message)
    requires ResultsApart(ms) && (ms != [] ==> !(HasResults(ms[|ms| - 1]) && HasResults(m)))
    ensures ResultsApart(ms + [m])
  {
    assert (ms + [m])[..|ms|] == ms;
  }

  predicate Neat(ms: seq<Message>) {
    AllPlainly(ms) && ResultsApart(ms)
  }

  predicate LastWithoutResults(ms: seq<Message>) {
    ms != [] ==> !HasResults(ms[|ms| - 1])
  }

  lemma NeatSnoc(ms: seq<Message>, m: Message)
    requires Neat(ms) && Plainly(m) && (ms != [] ==> !(HasResults(ms[|ms| - 1]) && HasResults(m)))
    ensures Neat(ms + [m])
  {
    ApartSnoc(ms, m);
  }

  lemma NeatPending(ms: seq<Message>, results: seq<ToolResult>)
    requires Neat(ms) && LastWithoutResults(ms)
    ensures Neat(ms + Pending(results))
  {
    if results != [] {
      NeatSnoc(ms, Pending(results)[0]);
    } else {
      assert ms + [] == ms;
    }
  }

  lemma {:induction false} ScanIsNeat(ms: seq<ChatMessage>)
    ensures Neat(Scanned(ms).done) && LastWithoutResults(Scanned(ms).done)
  {
    if ms == [] {
    } else {
      var s, m := Scanned(ms[..|ms| - 1]), ms[|ms| - 1];
      ScanIsNeat(ms[..|ms| - 1]);
      if m.role.Chat? {
        ConvertedPlainly(m);
        NeatPending(s.done, s.pending);
        NeatSnoc(s.done + Pending(s.pending), Converted(m));
      }
    }
  }

  /** Results are only in lists of user messages, tool uses only in lists of assistants, and runs of results are gathered. */
  lemma ConversionIsPlain(ms: seq<ChatMessage>)
    ensures AllPlainly(Unified(ms)) && ResultsApart(Unified(ms))
  {
    ScanIsNeat(Conversation(ms));
    NeatPending(Scanned(Conversation(ms)).done, Scanned(Conversation(ms)).pending);
  }

  // ----- From the conversation to the payload -----

  /** The payload for an OpenAI conversation. */
  function PayloadFor(canon: string -> string, prompt: string, thinking: string, ms: seq<ChatMessage>,
                      hasTools: bool): Result<Payload>
  {
    var merged := Merged(Handled(Unified(ms), hasTools));
    if merged == [] then Err("No messages to send") else Ok(PayloadOf(canon, prompt, thinking, merged))
  }

  lemma {:induction false} ScanIsEmpty(ms: seq<ChatMessage>)
    ensures Scanned(ms) == Scan([], []) <==> forall k | 0 <= k < |ms| :: ms[k].role == System
  {
    if ms == [] {
    } else {
      var init := ms[..|ms| - 1];
      ScanIsEmpty(init);
      assert forall k | 0 <= k < |init| :: init[k] == ms[k];
    }
  }

  lemma {:induction false} ConversationIsEmpty(ms: seq<ChatMessage>)
    ensures Conversation(ms) == [] <==> forall k | 0 <= k < |ms| :: ms[k].role == System
    ensures forall k | 0 <= k < |Conversation(ms)| :: Conversation(ms)[k].role != System
  {
    if ms == [] {
    } else {
      var init := ms[..|ms| - 1];
      ConversationIsEmpty(init);
      assert forall k | 0 <= k < |init| :: init[k] == ms[k];
    }
  }

  /** A request is refused exactly when it has no message that is not of the system. */
  lemma {:induction false} OnlySystemIsRefused(canon: string -> string, prompt: string, thinking: string,
                                               ms: seq<ChatMessage>, hasTools: bool)
    ensures PayloadFor(canon, prompt, thinking, ms, hasTools).Err? <==> forall k | 0 <= k < |ms| :: ms[k].role == System
  {
    ScanIsEmpty(Conversation(ms));
    ConversationIsEmpty(ms);
    MergingAlternates(Handled(Unified(ms), hasTools));
    assert Conversation(ms) != [] ==> Conversation(ms)[0].role != System;
  }

  /** With tools: results directly follow uses, whatever the conversation. */
  lemma OpenAIResultsFollowUses(canon: string -> string, prompt: string, thinking: string, ms: seq<ChatMessage>)
    ensures var p := PayloadFor(canon, prompt, thinking, ms, true);
            p.Ok? ==> Paired(Entries(p.value))
  {
    UnifiedIsNatural(ms);
    if Unified(ms) != [] {
      ResultsFollowUses(canon, prompt, thinking, Unified(ms));
    }
  }

  /** Nothing can come back, and nothing is stray. */
  lemma {:induction false} UnifiedIsNatural(ms: seq<ChatMessage>)
    ensures Natural(Unified(ms))
    ensures forall k | 0 <= k < |Unified(ms)| :: !HasResultBlock(Unified(ms)[k].content)
  {
    ConversionIsPlain(ms);
    forall k | 0 <= k < |Unified(ms)|
      ensures var m := Unified(ms)[k];
              Listed(m) && UserResults(m) && !HasResultBlock(m.content)
    {
      assert Plainly(Unified(ms)[k]);
    }
  }

  /**
   * Without tools: no tool data in any entry, and every text, call and result in the text of an entry, in order,
   * whatever the conversation.
   */
  lemma OpenAIToolsBecomeText(canon: string -> string, prompt: string, thinking: string, ms: seq<ChatMessage>)
    returns (placed: seq<seq<string>>)
    ensures var p := PayloadFor(canon, prompt, thinking, ms, false);
            p.Ok? ==> && NoToolData(Entries(p.value))
                      && AllEmbed(placed, Contents(Entries(p.value))) && Flat(placed) == ChatPieces(ms)
  {
    UnifiedIsNatural(ms);
    ConversionKeepsPieces(ms);
    WithoutSystem(ms);
    placed := [];
    if Unified(ms) != [] {
      NoToolDataWithoutTools(canon, prompt, thinking, Unified(ms));
      placed := NothingIsLost(canon, prompt, thinking, Unified(ms));
    }
  }

  /** With tools: every text of a user or assistant in the text of an entry, in order. */
  lemma OpenAITextsArrive(canon: string -> string, prompt: string, thinking: string, ms: seq<ChatMessage>)
    returns (placed: seq<seq<string>>)
    ensures var p := PayloadFor(canon, prompt, thinking, ms, true);
            p.Ok? ==> AllEmbed(placed, Contents(Entries(p.value))) && Flat(placed) == ChatTexts(ms)
  {
    ConversionKeepsPieces(ms);
    WithoutSystem(ms);
    placed := [];
    if Unified(ms) != [] {
      placed := TextsArrive(canon, prompt, thinking, Unified(ms));
    }
  }

  /** `build_kiro_payload`: an OpenAI request from its messages to its payload. */
  method BuildKiroPayload(ms: seq<ChatMessage>, additions: seq<string>, thinking: string, hasTools: bool,
                          canon: string -> string)
    returns (result: Result<Payload>)
    ensures result == PayloadFor(canon, FullPrompt(Trim(SystemText(ms)), additions), thinking, ms, hasTools)
  {
    var systemPrompt, unified := ConvertOpenAIMessages(ms);
    result := BuildKiroPayloadCore(unified, systemPrompt, additions, thinking, hasTools, canon);
    MergingAlternates(Handled(unified, hasTools));
    EnsuringKeeps(unified);
  }
}
