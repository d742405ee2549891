/** Input items of the Responses API as chat messages, and what becomes of a turn of tool calls. */
module ResponsesInput {
  import opened Wrappers
  import opened Text
  import opened ChatModel
  import opened RequestConversion
  import opened ResponsesModel

  /** The role of a message item; developers speak as the system. */
  datatype ItemRole = Developer | Given(role: ChatModel.Role)

  /** An input item. Reasoning and other internal items are passed over. */
  datatype InputItem =
    | FunctionCall(callId: IdField, id: IdField, name: string, arguments: string)
    | FunctionCallOutput(outputFor: string, output: Option<Value>)
    | Internal
    | MessageInput(role: Option<ItemRole>, content: Option<Value>)

  // ----- Outputs of function calls -----

  /** The texts in an output that is an array: empty ones are passed over. */
  function OutputTexts(parts: seq<ChatModel.Part>): seq<string> {
    if parts == [] then []
    else
      OutputTexts(parts[..|parts| - 1])
      + match parts[|parts| - 1]
        case TextPart(Some(text)) => if text == "" then [] else [text]
        case _ => []
  }

  predicate HasImage(parts: seq<ChatModel.Part>) {
    parts != [] && (HasImage(parts[..|parts| - 1]) || parts[|parts| - 1].ImagePart?)
  }

  /** `json` stands for the JSON text of a value. */
  function OutputText(json: Value -> string, output: Value): string {
    match output
    case Str(s) => s
    case Null => ""
    case Arr(parts) => if OutputTexts(parts) != [] && !HasImage(parts) then Concat(OutputTexts(parts)) else json(output)
    case Opaque(_) => json(output)
  }

  method NormalizeFunctionCallOutput(json: Value -> string, output: Value) returns (text: string)
    ensures text == OutputText(json, output)
  {
    match output {
      case Str(s) => return s;
      case Null => return "";
      case Opaque(_) => return json(output);
      case Arr(parts) =>
        var texts, hasImages := [], false;
        for i := 0 to |parts|
          invariant texts == OutputTexts(parts[..i]) && hasImages == HasImage(parts[..i])
        {
          assert parts[..i + 1][..i] == parts[..i];
          match parts[i] {
            case TextPart(text) =>
              if text.Some? && text.value != "" {
                texts := texts + [text.value];
              }
            case ImagePart =>
              hasImages := true;
            case _ =>
          }
        }
        assert parts[..|parts|] == parts;
        if texts != [] && !hasImages {
          return Concat(texts);
        }
        return json(output);
    }
  }

  /** All texts of an array one after the other; an array element that is no text has none. */
  function TextsTogether(parts: seq<ChatModel.Part>): string {
    if parts == [] then ""
    else
      TextsTogether(parts[..|parts| - 1])
      + match parts[|parts| - 1] case TextPart(Some(text)) => text case _ => ""
  }

  lemma {:induction false} TextsAreTogether(parts: seq<ChatModel.Part>)
    ensures Concat(OutputTexts(parts)) == TextsTogether(parts) && (OutputTexts(parts) == [] <==> TextsTogether(parts) == "")
  {
    if parts == [] {
    } else {
      var init, last := parts[..|parts| - 1], parts[|parts| - 1];
      TextsAreTogether(init);
      assert OutputTexts(init) + [] == OutputTexts(init) && TextsTogether(init) + "" == TextsTogether(init);
      if last.TextPart? && last.text.GetOr("") != "" {
        ConcatSnoc(OutputTexts(init), last.text.value);
      }
    }
  }

  lemma {:induction false} ImagesAreFound(parts: seq<ChatModel.Part>)
    ensures HasImage(parts) <==> exists k :: 0 <= k < |parts| && parts[k].ImagePart?
  {
    if parts == [] {
    } else {
      var init := parts[..|parts| - 1];
      ImagesAreFound(init);
      assert forall k | 0 <= k < |init| :: init[k] == parts[k];
    }
  }

  /** An output as text: a string as it is, nothing for null, the texts of an array without images, else its JSON text. */
  lemma OutputIsText(json: Value -> string, output: Value)
    ensures OutputText(json, output) ==
            match output
            case Str(s) => s
            case Null => ""
            case Arr(parts) =>
              if TextsTogether(parts) != "" && forall k | 0 <= k < |parts| :: !parts[k].ImagePart? then TextsTogether(parts)
              else json(output)
            case Opaque(_) => json(output)
  {
    if output.Arr? {
      TextsAreTogether(output.parts);
      ImagesAreFound(output.parts);
    }
  }

  // ----- Messages -----

  /** The identifier of a call: its `call_id`, or its `id` when there is none. */
  function CallId(callId: IdField, id: IdField): string {
    if callId.Absent? then IdText(id) else IdText(callId)
  }

  function CallOf(item: InputItem): ChatModel.ToolCall
    requires item.FunctionCall?
  {
    ChatModel.ToolCall(CallId(item.callId, item.id), item.name, item.arguments)
  }

  predicate IsToolTurn(m: ChatMessage) {
    m.role == Assistant && m.toolCalls.Some?
  }

  /** A call joins the calls of the last message. */
  function WithCall(before: seq<ChatMessage>, call: ChatModel.ToolCall): seq<ChatMessage> {
    var last := |before| - 1;
    if before != [] && IsToolTurn(before[last])
    then before[last := before[last].(toolCalls := Some(before[last].toolCalls.value + [call]))]
    else before + [ChatMessage(Assistant, None, Some([call]), None)]
  }

  function RoleOf(role: Option<ItemRole>): ChatModel.Role {
    match role
    case Some(Developer) => System
    case Some(Given(r)) => r
    case None => User
  }

  /** `parts` stands for the conversion of content parts. */
  function WithItem(parts: Value -> Value, json: Value -> string, before: seq<ChatMessage>,
                    item: InputItem): seq<ChatMessage>
  {
    match item
    case FunctionCall(_, _, _, _) => WithCall(before, CallOf(item))
    case FunctionCallOutput(callId, output) =>
      if callId == "" then before
      else before + [ChatMessage(ToolRole, Some(Str(OutputText(json, output.GetOr(Null)))), None, Some(callId))]
    case Internal => before
    case MessageInput(role, content) =>
      if content.GetOr(Null) == Null then before
      else before + [ChatMessage(RoleOf(role), Some(parts(content.value)), None, None)]
  }

  function FromItems(parts: Value -> Value, json: Value -> string, start: seq<ChatMessage>,
                     items: seq<InputItem>): seq<ChatMessage>
  {
    if items == [] then start
    else WithItem(parts, json, FromItems(parts, json, start, items[..|items| - 1]), items[|items| - 1])
  }

  function Instructions(instructions: Option<string>): seq<ChatMessage> {
    match instructions
    case Some(text) => if text == "" then [] else [ChatMessage(System, Some(Str(text)), None, None)]
    case None => []
  }

  function ChatMessages(parts: Value -> Value, json: Value -> string, instructions: Option<string>,
                        items: seq<InputItem>): seq<ChatMessage>
  {
    FromItems(parts, json, Instructions(instructions), items)
  }

  method PushCall(before: seq<ChatMessage>, call: ChatModel.ToolCall) returns (messages: seq<ChatMessage>)
    ensures messages == WithCall(before, call)
  {
    messages := before;
    var last := |messages| - 1;
    if messages != [] && messages[last].role == Assistant && messages[last].toolCalls.Some? {
      messages := messages[last := messages[last].(toolCalls := Some(messages[last].toolCalls.value + [call]))];
    } else {
      messages := messages + [ChatMessage(Assistant, None, Some([call]), None)];
    }
  }

  method ResponsesToChatCompletion(parts: Value -> Value, json: Value -> string, instructions: Option<string>,
                                   items: seq<InputItem>)
    returns (messages: seq<ChatMessage>)
    ensures messages == ChatMessages(parts, json, instructions, items)
  {
    messages := [];
    if instructions.Some? && instructions.value != "" {
      messages := messages + [ChatMessage(System, Some(Str(instructions.value)), None, None)];
    }
    for i := 0 to |items|
      invariant messages == FromItems(parts, json, Instructions(instructions), items[..i])
    {
      assert items[..i + 1][..i] == items[..i];
      match items[i] {
        case FunctionCall(_, _, _, _) =>
          messages := PushCall(messages, CallOf(items[i]));
        case FunctionCallOutput(callId, output) =>
          if callId == "" {
            continue;
          }
          var text := NormalizeFunctionCallOutput(json, output.GetOr(Null));
          messages := messages + [ChatMessage(ToolRole, Some(Str(text)), None, Some(callId))];
        case Internal =>
        case MessageInput(role, content) =>
          if content.GetOr(Null) == Null {
            continue;
          }
          messages := messages + [ChatMessage(RoleOf(role), Some(parts(content.value)), None, None)];
      }
    }
    assert items[..|items|] == items;
  }

  // ----- Calls are kept, turns are gathered -----

  function AllCalls(ms: seq<ChatMessage>): seq<ChatModel.ToolCall> {
    if ms == [] then [] else AllCalls(ms[..|ms| - 1]) + ms[|ms| - 1].toolCalls.GetOr([])
  }

  /** The calls of all items: each with its `call_id`, or its `id` when that is not there. */
  function ItemCalls(items: seq<InputItem>): seq<ChatModel.ToolCall> {
    if items == [] then []
    else
      ItemCalls(items[..|items| - 1])
      + match items[|items| - 1]
        case FunctionCall(Id(callId), _, name, arguments) => [ChatModel.ToolCall(callId, name, arguments)]
        case FunctionCall(Absent, Id(id), name, arguments) => [ChatModel.ToolCall(id, name, arguments)]
        case FunctionCall(_, _, name, arguments) => [ChatModel.ToolCall("", name, arguments)]
        case _ => []
  }

  lemma ItemCallsSnoc(items: seq<InputItem>)
    requires items != []
    ensures var init, last := items[..|items| - 1], items[|items| - 1];
            ItemCalls(items) == if last.FunctionCall? then ItemCalls(init) + [CallOf(last)] else ItemCalls(init)
  {
    assert ItemCalls(items[..|items| - 1]) + [] == ItemCalls(items[..|items| - 1]);
  }

  /** No two neighbours are both messages of tool calls. */
  predicate TurnsApart(ms: seq<ChatMessage>) {
    |ms| > 1 ==> TurnsApart(ms[..|ms| - 1]) && !(IsToolTurn(ms[|ms| - 2]) && IsToolTurn(ms[|ms| - 1]))
  }

  lemma CallsPush(ms: seq<ChatMessage>, m: ChatMessage)
    ensures AllCalls(ms + [m]) == AllCalls(ms) + m.toolCalls.GetOr([])
    ensures TurnsApart(ms + [m]) <==> TurnsApart(ms) && (ms != [] ==> !(IsToolTurn(ms[|ms| - 1]) && IsToolTurn(m)))
  {
    assert (ms + [m])[..|ms|] == ms;
    if ms != [] {
      assert (ms + [m])[|ms| - 1] == ms[|ms| - 1];
    }
  }

  lemma CallJoins(before: seq<ChatMessage>, call: ChatModel.ToolCall)
    requires TurnsApart(before)
    ensures AllCalls(WithCall(before, call)) == AllCalls(before) + [call] && TurnsApart(WithCall(before, call))
  {
    var last := |before| - 1;
    if before != [] && IsToolTurn(before[last]) {
      var init, joined := before[..last], before[last].(toolCalls := Some(before[last].toolCalls.value + [call]));
      assert before == init + [before[last]] && before[last := joined] == init + [joined];
      CallsPush(init, before[last]);
      CallsPush(init, joined);
      assert AllCalls(init) + (before[last].toolCalls.value + [call]) == AllCalls(init) + before[last].toolCalls.value + [call];
    } else {
      CallsPush(before, ChatMessage(Assistant, None, Some([call]), None));
    }
  }

  lemma {:induction false} ItemsKeepCalls(parts: Value -> Value, json: Value -> string, start: seq<ChatMessage>,
                                          items: seq<InputItem>)
    requires TurnsApart(start)
    ensures AllCalls(FromItems(parts, json, start, items)) == AllCalls(start) + ItemCalls(items)
    ensures TurnsApart(FromItems(parts, json, start, items))
  {
    if items == [] {
      assert AllCalls(start) + [] == AllCalls(start);
    } else {
      var before, item := FromItems(parts, json, start, items[..|items| - 1]), items[|items| - 1];
      ItemsKeepCalls(parts, json, start, items[..|items| - 1]);
      ItemKeepsCalls(parts, json, before, item);
      ItemCallsSnoc(items);
      var calls := if item.FunctionCall? then [CallOf(item)] else [];
      var before' := ItemCalls(items[..|items| - 1]);
      assert AllCalls(start) + before' + calls == AllCalls(start) + (before' + calls);
    }
  }

  lemma ItemKeepsCalls(parts: Value -> Value, json: Value -> string, before: seq<ChatMessage>, item: InputItem)
    requires TurnsApart(before)
    ensures AllCalls(WithItem(parts, json, before, item)) ==
            AllCalls(before) + if item.FunctionCall? then [CallOf(item)] else []
    ensures TurnsApart(WithItem(parts, json, before, item))
  {
    assert AllCalls(before) + [] == AllCalls(before);
    match item
    case FunctionCall(_, _, _, _) => CallJoins(before, CallOf(item));
    case FunctionCallOutput(callId, output) =>
      CallsPush(before, ChatMessage(ToolRole, Some(Str(OutputText(json, output.GetOr(Null)))), None, Some(callId)));
    case Internal =>
    case MessageInput(role, content) =>
      CallsPush(before, ChatMessage(RoleOf(role), Some(parts(content.GetOr(Null))), None, None));
  }

  /** The calls of all messages are the function call items in order, and turns of calls are never neighbours. */
  lemma CallsAreKept(parts: Value -> Value, json: Value -> string, instructions: Option<string>, items: seq<InputItem>)
    ensures AllCalls(ChatMessages(parts, json, instructions, items)) == ItemCalls(items)
    ensures TurnsApart(ChatMessages(parts, json, instructions, items))
  {
    var start := Instructions(instructions);
    if start != [] {
      assert start == [] + start;
      CallsPush([], start[0]);
    }
    ItemsKeepCalls(parts, json, start, items);
  }

  // ----- A turn of calls and outputs for Anthropic -----

  /** Items that leave no message. */
  predicate PassedOver(item: InputItem) {
    match item
    case FunctionCall(_, _, _, _) => false
    case FunctionCallOutput(callId, _) => callId == ""
    case Internal => true
    case MessageInput(_, content) => content.GetOr(Null) == Null
  }

  /** A run of calls; items that are passed over may stand between. */
  predicate AreCalls(items: seq<InputItem>) {
    forall k | 0 <= k < |items| :: items[k].FunctionCall? || PassedOver(items[k])
  }

  predicate AreOutputs(items: seq<InputItem>) {
    forall k | 0 <= k < |items| :: items[k].FunctionCallOutput? || PassedOver(items[k])
  }

  /** The last item that is not passed over is a call: a further call would join it. */
  predicate EndsInCall(items: seq<InputItem>) {
    if items == [] then false
    else
      var last := items[|items| - 1];
      last.FunctionCall? || (PassedOver(last) && EndsInCall(items[..|items| - 1]))
  }

  /** The results for Anthropic: one for each output that is not passed over. */
  function OutputParts(json: Value -> string, items: seq<InputItem>): seq<ChatModel.Part> {
    if items == [] then []
    else
      var before, last := OutputParts(json, items[..|items| - 1]), items[|items| - 1];
      if !last.FunctionCallOutput? || PassedOver(last) then before
      else before + [ToolResultPart(last.outputFor, Some(Str(OutputText(json, last.output.GetOr(Null)))))]
  }

  lemma {:induction false} FromItemsAppend(parts: Value -> Value, json: Value -> string, start: seq<ChatMessage>,
                                           a: seq<InputItem>, b: seq<InputItem>)
    ensures FromItems(parts, json, start, a + b) == FromItems(parts, json, FromItems(parts, json, start, a), b)
  {
    if b == [] {
      assert a + b == a;
    } else {
      assert (a + b)[..|a + b| - 1] == a + b[..|b| - 1];
      FromItemsAppend(parts, json, start, a, b[..|b| - 1]);
    }
  }

  predicate EndsInTurn(ms: seq<ChatMessage>) {
    ms != [] && IsToolTurn(ms[|ms| - 1])
  }

  /** The messages end in tool calls exactly when the items do. */
  lemma {:induction false} EndsAlike(parts: Value -> Value, json: Value -> string, start: seq<ChatMessage>,
                                     items: seq<InputItem>)
    requires !EndsInTurn(start)
    ensures EndsInTurn(FromItems(parts, json, start, items)) <==> EndsInCall(items)
  {
    if items == [] {
    } else {
      EndsAlike(parts, json, start, items[..|items| - 1]);
    }
  }

  function TurnOf(calls: seq<ChatModel.ToolCall>): seq<ChatMessage> {
    if calls == [] then [] else [ChatMessage(Assistant, None, Some(calls), None)]
  }

  lemma CallGrowsTurn(start: seq<ChatMessage>, calls: seq<ChatModel.ToolCall>, call: ChatModel.ToolCall)
    requires !EndsInTurn(start)
    ensures WithCall(start + TurnOf(calls), call) == start + TurnOf(calls + [call])
  {
    if calls == [] {
      assert start + [] == start && [] + [call] == [call];
    } else {
      assert (start + TurnOf(calls))[|start|] == TurnOf(calls)[0];
    }
  }

  /** A run of calls becomes one message. */
  lemma {:induction false} CallsBecomeOne(parts: Value -> Value, json: Value -> string, start: seq<ChatMessage>,
                                          calls: seq<InputItem>)
    requires AreCalls(calls) && !EndsInTurn(start)
    ensures FromItems(parts, json, start, calls) == start + TurnOf(ItemCalls(calls))
  {
    if calls == [] {
      assert start + [] == start;
    } else {
      var init, last := calls[..|calls| - 1], calls[|calls| - 1];
      assert forall k | 0 <= k < |init| :: init[k] == calls[k];
      CallsBecomeOne(parts, json, start, init);
      ItemCallsSnoc(calls);
      if last.FunctionCall? {
        CallGrowsTurn(start, ItemCalls(init), CallOf(last));
      } else {
        assert PassedOver(last);
      }
    }
  }

  lemma ToAnthropicSnoc(canon: string -> string, ms: seq<ChatMessage>, m: ChatMessage)
    ensures ToAnthropic(canon, ms + [m]) == WithMessage(canon, ToAnthropic(canon, ms), m)
  {
    assert (ms + [m])[..|ms|] == ms;
  }

  function OutputMessage(json: Value -> string, item: InputItem): ChatMessage
    requires item.FunctionCallOutput?
  {
    ChatMessage(ToolRole, Some(Str(OutputText(json, item.output.GetOr(Null)))), None, Some(item.outputFor))
  }

  function OutputMessages(json: Value -> string, items: seq<InputItem>): seq<ChatMessage> {
    if items == [] then []
    else
      var before, last := OutputMessages(json, items[..|items| - 1]), items[|items| - 1];
      if !last.FunctionCallOutput? || PassedOver(last) then before else before + [OutputMessage(json, last)]
  }

  lemma {:induction false} OutputsBecomeMessages(parts: Value -> Value, json: Value -> string, start: seq<ChatMessage>,
                                                 outputs: seq<InputItem>)
    requires AreOutputs(outputs)
    ensures FromItems(parts, json, start, outputs) == start + OutputMessages(json, outputs)
  {
    if outputs == [] {
      assert start + [] == start;
    } else {
      var init, last := outputs[..|outputs| - 1], outputs[|outputs| - 1];
      assert forall k | 0 <= k < |init| :: init[k] == outputs[k];
      OutputsBecomeMessages(parts, json, start, init);
      if !PassedOver(last) {
        Associates(start, OutputMessages(json, init), [OutputMessage(json, last)]);
      }
    }
  }

  // ----- What comes behind -----

  /** Behind a message that is no tool call further items only add messages. */
  lemma {:induction false} ItemsAreAdded(parts: Value -> Value, json: Value -> string, start: seq<ChatMessage>,
                                         items: seq<InputItem>)
    requires !EndsInTurn(start)
    ensures FromItems(parts, json, start, items) == start + FromItems(parts, json, [], items)
  {
    if items == [] {
      assert start + [] == start;
    } else {
      ItemsAreAdded(parts, json, start, items[..|items| - 1]);
      ItemIsAdded(parts, json, start, FromItems(parts, json, [], items[..|items| - 1]), items[|items| - 1]);
    }
  }

  lemma ItemIsAdded(parts: Value -> Value, json: Value -> string, start: seq<ChatMessage>, more: seq<ChatMessage>,
                    item: InputItem)
    requires !EndsInTurn(start)
    ensures WithItem(parts, json, start + more, item) == start + WithItem(parts, json, more, item)
  {
    if more == [] {
      assert start + more == start;
    } else {
      assert (start + more)[|start + more| - 1] == more[|more| - 1];
    }
  }

  /** Messages that leave a user message with results the last one: further results, and what goes to the system. */
  predicate AreResults(ms: seq<ChatMessage>) {
    forall k | 0 <= k < |ms| :: ms[k].role == ToolRole || ms[k].role == System
  }

  /** The results before the first message of another kind; they join the user message with results before them. */
  function NextResults(ms: seq<ChatMessage>): seq<ChatModel.Part> {
    if ms == [] then []
    else
      var before, last := NextResults(ms[..|ms| - 1]), ms[|ms| - 1];
      if last.role == ToolRole && AreResults(ms) then before + [ResultPart(last)] else before
  }

  /** Behind `before`, a user message with results, and behind that messages of other kinds only. */
  predicate Gathered(result: seq<AnthropicMessage>, before: seq<AnthropicMessage>, results: seq<ChatModel.Part>,
                     isLast: bool) {
    && |result| > |before| && result[..|before|] == before
    && result[|before|] == AnthropicMessage(User, Arr(results))
    && (isLast <==> |result| == |before| + 1)
  }

  lemma GatherOne(canon: string -> string, result: seq<AnthropicMessage>, before: seq<AnthropicMessage>,
                  results: seq<ChatModel.Part>, isLast: bool, m: ChatMessage)
    requires Gathered(result, before, results, isLast)
    ensures Gathered(WithMessage(canon, result, m), before,
                     if isLast && m.role == ToolRole then results + [ResultPart(m)] else results,
                     isLast && (m.role == ToolRole || m.role == System))
  {
    var next := WithMessage(canon, result, m);
    assert |next| > |before| && next[..|before|] == before;
  }

  lemma NextResultsSnoc(results: seq<ChatModel.Part>, ms: seq<ChatMessage>)
    requires ms != []
    ensures var init, last := ms[..|ms| - 1], ms[|ms| - 1];
            && (AreResults(ms) <==> AreResults(init) && (last.role == ToolRole || last.role == System))
            && results + NextResults(ms) ==
               if AreResults(init) && last.role == ToolRole then results + NextResults(init) + [ResultPart(last)]
               else results + NextResults(init)
  {
    var init, last := ms[..|ms| - 1], ms[|ms| - 1];
    assert forall k | 0 <= k < |init| :: init[k] == ms[k];
    assert results + NextResults(init) + [ResultPart(last)] == results + (NextResults(init) + [ResultPart(last)]);
  }

  /** Results behind a user message with results are gathered in it, until a message of another kind comes. */
  lemma {:induction false} ResultsGather(canon: string -> string, ms: seq<ChatMessage>, more: seq<ChatMessage>,
                                         before: seq<AnthropicMessage>, results: seq<ChatModel.Part>)
    requires Gathered(ToAnthropic(canon, ms), before, results, true)
    ensures Gathered(ToAnthropic(canon, ms + more), before, results + NextResults(more), AreResults(more))
    decreases |more|
  {
    if more == [] {
      assert ms + more == ms && results + [] == results;
    } else {
      var init, last := more[..|more| - 1], more[|more| - 1];
      ResultsGather(canon, ms, init, before, results);
      assert ms + more == ms + init + [last];
      ToAnthropicSnoc(canon, ms + init, last);
      GatherOne(canon, ToAnthropic(canon, ms + init), before, results + NextResults(init), AreResults(init), last);
      NextResultsSnoc(results, more);
    }
  }

  /** The first result behind an assistant message opens a user message. */
  lemma {:induction false} FirstGathers(canon: string -> string, ms: seq<ChatMessage>, m: ChatMessage)
    requires m.role == ToolRole && var before := ToAnthropic(canon, ms); before != [] && before[|before| - 1].role == Assistant
    ensures Gathered(ToAnthropic(canon, ms + [m]), ToAnthropic(canon, ms), [ResultPart(m)], true)
  {
    ToAnthropicSnoc(canon, ms, m);
    ResultOpens(ToAnthropic(canon, ms), ResultPart(m));
  }

  lemma ResultOpens(before: seq<AnthropicMessage>, part: ChatModel.Part)
    requires before != [] && before[|before| - 1].role == Assistant
    ensures Gathered(WithResult(before, part), before, [part], true)
  {
    assert WithResult(before, part) == before + [AnthropicMessage(User, Arr([part]))];
  }

  lemma {:induction false} OutputsAreResults(json: Value -> string, outputs: seq<InputItem>)
    ensures forall k | 0 <= k < |OutputMessages(json, outputs)| :: OutputMessages(json, outputs)[k].role == ToolRole
  {
    if outputs == [] {
    } else {
      OutputsAreResults(json, outputs[..|outputs| - 1]);
    }
  }

  lemma {:induction false} OutputResults(json: Value -> string, outputs: seq<InputItem>)
    requires AreOutputs(outputs)
    ensures NextResults(OutputMessages(json, outputs)) == OutputParts(json, outputs)
  {
    if outputs == [] {
    } else {
      var init, last := outputs[..|outputs| - 1], outputs[|outputs| - 1];
      assert forall k | 0 <= k < |init| :: init[k] == outputs[k];
      OutputResults(json, init);
      if !PassedOver(last) {
        OutputsAreResults(json, init);
        ResultIsNext(OutputMessages(json, init), OutputMessage(json, last));
      }
    }
  }

  lemma ResultIsNext(ms: seq<ChatMessage>, m: ChatMessage)
    requires AreResults(ms) && m.role == ToolRole
    ensures NextResults(ms + [m]) == NextResults(ms) + [ResultPart(m)]
  {
    assert (ms + [m])[..|ms|] == ms;
  }

  lemma {:induction false} NextResultsAppend(a: seq<ChatMessage>, b: seq<ChatMessage>)
    requires AreResults(a)
    ensures NextResults(a + b) == NextResults(a) + NextResults(b)
  {
    if b == [] {
      assert a + b == a;
    } else {
      var init, last := b[..|b| - 1], b[|b| - 1];
      assert (a + b)[..|a + b| - 1] == a + init;
      NextResultsAppend(a, init);
      assert AreResults(a + b) <==> AreResults(b) by {
        assert forall k | 0 <= k < |b| :: (a + b)[|a| + k] == b[k];
      }
    }
  }

  /**
   * Wherever a run of calls followed by a run of outputs stands in the input, with items that are passed over between
   * them, it becomes, for Anthropic, one assistant message with all the calls, directly followed by one user message
   * that begins with all the outputs; only the results that come next, if any, are gathered in it, too.
   */
  lemma TurnIsAdjacent(canon: string -> string, parts: Value -> Value, json: Value -> string,
                       instructions: Option<string>, earlier: seq<InputItem>, calls: seq<InputItem>,
                       outputs: seq<InputItem>, later: seq<InputItem>)
    requires AreCalls(calls) && ItemCalls(calls) != [] && AreOutputs(outputs) && OutputParts(json, outputs) != []
    requires !EndsInCall(earlier)
    ensures var before := ToAnthropic(canon, ChatMessages(parts, json, instructions, earlier));
            var result := ToAnthropic(canon, ChatMessages(parts, json, instructions, earlier + calls + outputs + later));
            && |result| >= |before| + 2 && result[..|before|] == before
            && result[|before|] == AnthropicMessage(Assistant, Arr(UseParts(canon, ItemCalls(calls))))
            && result[|before| + 1] ==
               AnthropicMessage(User, Arr(OutputParts(json, outputs) + NextResults(FromItems(parts, json, [], later))))
  {
    var start := Instructions(instructions);
    var ms := FromItems(parts, json, start, earlier);
    var turn, answers := TurnOf(ItemCalls(calls)), OutputMessages(json, outputs);
    EndsAlike(parts, json, start, earlier);
    TurnMessages(parts, json, start, earlier, calls, outputs, later);
    OutputResults(json, outputs);
    OutputsAreResults(json, outputs);
    TurnForAnthropic(canon, ms, ItemCalls(calls), answers, FromItems(parts, json, [], later));
    NextResultsAppend(answers, FromItems(parts, json, [], later));
  }

  /** The chat messages for an input with a turn in it. */
  lemma TurnMessages(parts: Value -> Value, json: Value -> string, start: seq<ChatMessage>, earlier: seq<InputItem>,
                     calls: seq<InputItem>, outputs: seq<InputItem>, later: seq<InputItem>)
    requires AreCalls(calls) && AreOutputs(outputs) && OutputParts(json, outputs) != []
    requires !EndsInTurn(FromItems(parts, json, start, earlier))
    ensures FromItems(parts, json, start, earlier + calls + outputs + later) ==
            FromItems(parts, json, start, earlier) + TurnOf(ItemCalls(calls)) + OutputMessages(json, outputs)
            + FromItems(parts, json, [], later)
  {
    var ms := FromItems(parts, json, start, earlier);
    var turn, answers := TurnOf(ItemCalls(calls)), OutputMessages(json, outputs);
    FromItemsAppend(parts, json, start, earlier + calls + outputs, later);
    FromItemsAppend(parts, json, start, earlier + calls, outputs);
    FromItemsAppend(parts, json, start, earlier, calls);
    CallsBecomeOne(parts, json, ms, calls);
    OutputsBecomeMessages(parts, json, ms + turn, outputs);
    OutputResults(json, outputs);
    OutputsAreResults(json, outputs);
    assert answers != [];
    assert (ms + turn + answers)[|ms + turn + answers| - 1] == answers[|answers| - 1];
    ItemsAreAdded(parts, json, ms + turn + answers, later);
  }

  /** A message of calls, results behind it, and whatever follows, for Anthropic. */
  lemma TurnForAnthropic(canon: string -> string, ms: seq<ChatMessage>, calls: seq<ChatModel.ToolCall>,
                         answers: seq<ChatMessage>, more: seq<ChatMessage>)
    requires calls != [] && answers != [] && answers[0].role == ToolRole
    ensures var before := ToAnthropic(canon, ms);
            var result := ToAnthropic(canon, ms + TurnOf(calls) + answers + more);
            && |result| >= |before| + 2 && result[..|before|] == before
            && result[|before|] == AnthropicMessage(Assistant, Arr(UseParts(canon, calls)))
            && result[|before| + 1] == AnthropicMessage(User, Arr(NextResults(answers + more)))
  {
    var assistant, first, rest := AnthropicMessage(Assistant, Arr(UseParts(canon, calls))), answers[0], answers[1..] + more;
    assert ms + TurnOf(calls) + answers + more == ms + TurnOf(calls) + [first] + rest;
    assert answers + more == [first] + rest;
    TurnGathers(canon, ms, calls, first, rest);
    Behind(ToAnthropic(canon, ms + TurnOf(calls) + [first] + rest), ToAnthropic(canon, ms), assistant,
           NextResults([first] + rest), AreResults(rest));
  }

  lemma TurnGathers(canon: string -> string, ms: seq<ChatMessage>, calls: seq<ChatModel.ToolCall>, first: ChatMessage,
                    rest: seq<ChatMessage>)
    requires calls != [] && first.role == ToolRole
    ensures Gathered(ToAnthropic(canon, ms + TurnOf(calls) + [first] + rest),
                     ToAnthropic(canon, ms) + [AnthropicMessage(Assistant, Arr(UseParts(canon, calls)))],
                     NextResults([first] + rest), AreResults(rest))
  {
    var turn := TurnOf(calls)[0];
    ToAnthropicSnoc(canon, ms, turn);
    TurnContent(canon, calls);
    FirstGathers(canon, ms + [turn], first);
    ResultsGather(canon, ms + [turn] + [first], rest, ToAnthropic(canon, ms + [turn]), [ResultPart(first)]);
    ResultsOfFirst(first, rest);
  }

  lemma ResultsOfFirst(first: ChatMessage, rest: seq<ChatMessage>)
    requires first.role == ToolRole
    ensures NextResults([first] + rest) == [ResultPart(first)] + NextResults(rest)
  {
    NextResultsAppend([first], rest);
    assert [first][..0] == [] && [] + [ResultPart(first)] == [ResultPart(first)];
  }

  lemma Behind(result: seq<AnthropicMessage>, before: seq<AnthropicMessage>, m: AnthropicMessage,
               results: seq<ChatModel.Part>, isLast: bool)
    requires Gathered(result, before + [m], results, isLast)
    ensures |result| >= |before| + 2 && result[..|before|] == before && result[|before|] == m
    ensures result[|before| + 1] == AnthropicMessage(User, Arr(results))
  {
    assert result[..|before|] == result[..|before + [m]|][..|before|];
    assert result[|before|] == result[..|before + [m]|][|before|];
  }

  lemma TurnContent(canon: string -> string, calls: seq<ChatModel.ToolCall>)
    requires calls != []
    ensures AssistantContent(canon, TurnOf(calls)[0]) == Arr(UseParts(canon, calls))
  {
    assert [] + UseParts(canon, calls) == UseParts(canon, calls);
  }

  // ----- What is said is kept -----

  /** Message items that are not passed over: their roles, developers as the system, and their contents. */
  function SaidInItems(parts: Value -> Value, items: seq<InputItem>): seq<(ChatModel.Role, Value)> {
    if items == [] then []
    else
      SaidInItems(parts, items[..|items| - 1])
      + match items[|items| - 1]
        case MessageInput(_, None) => []
        case MessageInput(role, Some(content)) =>
          if content == Null then []
          else [(match role case None => User case Some(Developer) => System case Some(Given(r)) => r, parts(content))]
        case _ => []
  }

  /** The outputs that are not passed over: identifier and text. */
  function OutputsInItems(json: Value -> string, items: seq<InputItem>): seq<(string, string)> {
    if items == [] then []
    else
      OutputsInItems(json, items[..|items| - 1])
      + match items[|items| - 1]
        case FunctionCallOutput(callId, output) =>
          if callId == "" then []
          else [(callId, OutputText(json, match output case Some(value) => value case None => Null))]
        case _ => []
  }

  /** Messages that are neither calls nor outputs. */
  function SaidIn(ms: seq<ChatMessage>): seq<(ChatModel.Role, Value)> {
    if ms == [] then []
    else
      var m := ms[|ms| - 1];
      SaidIn(ms[..|ms| - 1])
      + if m.toolCalls.None? && m.toolCallId.None? && m.content.Some? then [(m.role, m.content.value)] else []
  }

  function OutputsIn(ms: seq<ChatMessage>): seq<(string, string)> {
    if ms == [] then []
    else
      var m := ms[|ms| - 1];
      OutputsIn(ms[..|ms| - 1])
      + if m.role == ToolRole && m.toolCallId.Some? && m.content.Some? && m.content.value.Str?
        then [(m.toolCallId.value, m.content.value.s)] else []
  }

  lemma OneMoreMessage(ms: seq<ChatMessage>, m: ChatMessage)
    ensures SaidIn(ms + [m]) ==
            SaidIn(ms)
            + if m.toolCalls.None? && m.toolCallId.None? && m.content.Some? then [(m.role, m.content.value)] else []
    ensures OutputsIn(ms + [m]) ==
            OutputsIn(ms)
            + if m.role == ToolRole && m.toolCallId.Some? && m.content.Some? && m.content.value.Str?
              then [(m.toolCallId.value, m.content.value.s)] else []
  {
    assert (ms + [m])[..|ms|] == ms;
  }

  lemma CallSaysNothing(before: seq<ChatMessage>, call: ChatModel.ToolCall)
    ensures SaidIn(WithCall(before, call)) == SaidIn(before) && OutputsIn(WithCall(before, call)) == OutputsIn(before)
  {
    var last := |before| - 1;
    assert SaidIn(before) + [] == SaidIn(before) && OutputsIn(before) + [] == OutputsIn(before);
    if before != [] && IsToolTurn(before[last]) {
      var joined := before[last].(toolCalls := Some(before[last].toolCalls.value + [call]));
      assert before == before[..last] + [before[last]] && WithCall(before, call) == before[..last] + [joined];
      OneMoreMessage(before[..last], before[last]);
      OneMoreMessage(before[..last], joined);
    } else {
      OneMoreMessage(before, ChatMessage(Assistant, None, Some([call]), None));
    }
  }

  lemma {:induction false} ItemsKeepWhatIsSaid(parts: Value -> Value, json: Value -> string, start: seq<ChatMessage>,
                                               items: seq<InputItem>)
    ensures SaidIn(FromItems(parts, json, start, items)) == SaidIn(start) + SaidInItems(parts, items)
    ensures OutputsIn(FromItems(parts, json, start, items)) == OutputsIn(start) + OutputsInItems(json, items)
  {
    assert SaidIn(start) + [] == SaidIn(start) && OutputsIn(start) + [] == OutputsIn(start);
    if items == [] {
    } else {
      var init, item := items[..|items| - 1], items[|items| - 1];
      var before := FromItems(parts, json, start, init);
      ItemsKeepWhatIsSaid(parts, json, start, init);
      ItemIsSaid(parts, json, before, item);
      Regroup(SaidIn(start), SaidInItems(parts, init), SaidInItems(parts, [item]));
      Regroup(OutputsIn(start), OutputsInItems(json, init), OutputsInItems(json, [item]));
      OneItem(parts, json, init, item);
    }
  }

  lemma Regroup<T>(a: seq<T>, b: seq<T>, c: seq<T>)
    ensures a + (b + c) == a + b + c
  {
  }

  lemma OneItem(parts: Value -> Value, json: Value -> string, items: seq<InputItem>, item: InputItem)
    ensures SaidInItems(parts, items + [item]) == SaidInItems(parts, items) + SaidInItems(parts, [item])
    ensures OutputsInItems(json, items + [item]) == OutputsInItems(json, items) + OutputsInItems(json, [item])
  {
    assert (items + [item])[..|items|] == items && [item][..0] == [];
  }

  lemma {:induction false} ItemIsSaid(parts: Value -> Value, json: Value -> string, before: seq<ChatMessage>,
                                      item: InputItem)
    ensures SaidIn(WithItem(parts, json, before, item)) == SaidIn(before) + SaidInItems(parts, [item])
    ensures OutputsIn(WithItem(parts, json, before, item)) == OutputsIn(before) + OutputsInItems(json, [item])
  {
    assert [item][..0] == [];
    assert SaidIn(before) + [] == SaidIn(before) && OutputsIn(before) + [] == OutputsIn(before);
    match item
    case FunctionCall(_, _, _, _) => CallSaysNothing(before, CallOf(item));
    case FunctionCallOutput(callId, output) =>
      OneMoreMessage(before, ChatMessage(ToolRole, Some(Str(OutputText(json, output.GetOr(Null)))), None, Some(callId)));
    case Internal =>
    case MessageInput(role, content) =>
      OneMoreMessage(before, ChatMessage(RoleOf(role), Some(parts(content.GetOr(Null))), None, None));
  }

  /**
   * Messages keep their roles, developers speaking as the system, and their order, behind the instructions, if there
   * are any; and outputs of calls keep their identifiers, texts and order.
   */
  lemma WhatIsSaidIsKept(parts: Value -> Value, json: Value -> string, instructions: Option<string>,
                         items: seq<InputItem>)
    ensures var ms := ChatMessages(parts, json, instructions, items);
            && SaidIn(ms) ==
               (match instructions
                case Some(text) => if text == "" then [] else [(System, Str(text))]
                case None => [])
               + SaidInItems(parts, items)
            && OutputsIn(ms) == OutputsInItems(json, items)
  {
    var start := Instructions(instructions);
    ItemsKeepWhatIsSaid(parts, json, start, items);
    if start != [] {
      assert start == [] + start;
      OneMoreMessage([], start[0]);
      assert [] + [(System, start[0].content.value)] == [(System, start[0].content.value)];
    }
    assert [] + OutputsInItems(json, items) == OutputsInItems(json, items);
    assert [] + SaidInItems(parts, items) == SaidInItems(parts, items);
  }
}
