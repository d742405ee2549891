/** The one-shot conversion of a Chat Completion response into a Responses API response. */
module OneShot {
  import opened Wrappers
  import opened ResponsesModel

  function ReasoningItems(chatId: string, status: Status, reasoning: string): seq<Item> {
    if reasoning == "" then [] else [ReasoningItem(ReasoningId(chatId), status, [Part(reasoning, [])])]
  }

  function CallItem(c: ToolCall, status: Status): Item {
    FunctionCallItem(FunctionCallId(c.id), c.id, c.name, c.arguments, status)
  }

  function CallItems(calls: seq<ToolCall>, status: Status): seq<Item> {
    seq(|calls|, k requires 0 <= k < |calls| => CallItem(calls[k], status))
  }

  /** Images keep the number of their place in the message, also when some of them have no payload. */
  function ImageItems(chatId: string, status: Status, urls: seq<string>): seq<Item> {
    if urls == [] then []
    else
      var last := |urls| - 1;
      var init := ImageItems(chatId, status, urls[..last]);
      var payload := Base64Of(urls[last]);
      if payload == "" then init else init + [ImageItem(ImageId(chatId, last), status, Some(payload))]
  }

  /** The output array: reasoning if there is any, the message, its calls, its images. */
  function Output(chatId: string, m: Message, finish: Finish): seq<Item> {
    var status := StatusOf(finish);
    ReasoningItems(chatId, status, m.reasoning)
    + [MessageItem(MessageId(chatId), status, [Part(m.content, ConvertAnnotations(m.annotations))])]
    + CallItems(m.toolCalls, status)
    + ImageItems(chatId, ImageStatusOf(Some(finish)), m.images)
  }

  lemma {:induction false} ImagesAreMarked(chatId: string, status: Status, urls: seq<string>)
    ensures forall k | 0 <= k < |ImageItems(chatId, status, urls)| ::
              var item := ImageItems(chatId, status, urls)[k];
              item.ImageItem? && item.status == status && HasIdentifier(item, chatId)
  {
    if urls == [] {
    } else {
      ImagesAreMarked(chatId, status, urls[..|urls| - 1]);
      ImageIdStarts(chatId, |urls| - 1);
    }
  }

  lemma ImageIdStarts(chatId: string, n: nat)
    ensures chatId + "_img_" <= ImageId(chatId, n)
  {
  }

  /** Statuses and identifiers of an output. */
  lemma {:induction false} OutputIsMarked(chatId: string, m: Message, reason: string)
    ensures var output := Output(chatId, m, ParseFinish(reason));
            forall k | 0 <= k < |output| :: HasItemStatus(output[k], reason) && HasIdentifier(output[k], chatId)
  {
    ImagesAreMarked(chatId, ImageStatusOf(Some(ParseFinish(reason))), m.images);
  }

  /** A Chat Completion response; without choices there is neither a message nor a finish reason. */
  datatype ChatResponse = ChatResponse(
    id: Option<string>,
    model: Option<string>,
    created: Option<int>,
    message: Option<Message>,
    finishReason: Option<string>,
    usage: Option<Json>)

  const NO_MESSAGE := Message("", "", [], [], [])

  function FinishReason(chat: ChatResponse): Finish {
    match chat.finishReason
    case Some(f) => ParseFinish(f)
    case None => Stop
  }

  method ConvertResponse(chat: ChatResponse, requestModel: string, now: int) returns (response: Response)
    ensures response ==
            Response(ResponseId(chat.id.GetOr("unknown")), chat.created.GetOr(now), StatusOf(FinishReason(chat)),
                     chat.model.GetOr(requestModel),
                     Output(chat.id.GetOr("unknown"), chat.message.GetOr(NO_MESSAGE), FinishReason(chat)), chat.usage)
    ensures HasStatuses(response, match chat.finishReason case Some(reason) => reason case None => "stop")
    ensures HasIdentifiers(response, match chat.id case Some(id) => id case None => "unknown")
  {
    var chatId := chat.id.GetOr("unknown");
    var m := chat.message.GetOr(NO_MESSAGE);
    var finish := FinishReason(chat);
    var status := StatusOf(finish);
    var output: seq<Item> := [];
    if m.reasoning != "" {
      output := output + [ReasoningItem(ReasoningId(chatId), status, [Part(m.reasoning, [])])];
    }
    assert output == ReasoningItems(chatId, status, m.reasoning);
    output := output + [MessageItem(MessageId(chatId), status, [Part(m.content, ConvertAnnotations(m.annotations))])];
    output := PushCalls(output, m.toolCalls, status);
    output := PushImages(output, chatId, m.images, ImageStatusOf(Some(finish)));
    response := Response(ResponseId(chatId), chat.created.GetOr(now), status, chat.model.GetOr(requestModel), output,
                         chat.usage);
    OutputIsMarked(chatId, m, match chat.finishReason case Some(reason) => reason case None => "stop");
  }

  method PushCalls(head: seq<Item>, calls: seq<ToolCall>, status: Status) returns (output: seq<Item>)
    ensures output == head + CallItems(calls, status)
  {
    output := head;
    for k := 0 to |calls|
      invariant output == head + CallItems(calls[..k], status)
    {
      output := output + [CallItem(calls[k], status)];
      assert CallItems(calls[..k + 1], status) == CallItems(calls[..k], status) + [CallItem(calls[k], status)];
    }
    assert calls[..|calls|] == calls;
  }

  method PushImages(head: seq<Item>, chatId: string, urls: seq<string>, status: Status) returns (output: seq<Item>)
    ensures output == head + ImageItems(chatId, status, urls)
  {
    output := head;
    for idx := 0 to |urls|
      invariant output == head + ImageItems(chatId, status, urls[..idx])
    {
      assert urls[..idx + 1][..idx] == urls[..idx];
      var payload := Base64Of(urls[idx]);
      if payload != "" {
        output := output + [ImageItem(ImageId(chatId, idx), status, Some(payload))];
      }
    }
    assert urls[..|urls|] == urls;
  }
}
