/** The stateful transformer from Chat Completion chunks to Responses API events. */
module StreamTransformer {
  import opened Wrappers
  import opened ResponsesModel
  import opened StreamSteps

  class ResponsesStreamTransformer {
    const responseId: string
    const model: string
    var phase: Phase
    var hadReasoning: bool
    var reasoningText: string
    var messageText: string
    var accumulatedAnnotations: seq<Annotation>
    var accumulatedImages: seq<string>
    var finishReason: Option<Finish>
    var activeFunctionCalls: seq<ActiveCall>
    var chunkId: string
    var msgId: string
    var respId: string
    var created: int

    /** Everything emitted so far: the vector of a call is the part that the call has added. */
    var log: seq<Event>

    ghost predicate Valid()
      reads this
    {
      msgId == MessageId(chunkId) && respId == ResponseId(chunkId)
    }

    ghost function Now(): State
      reads this
    {
      var data := Data(reasoningText, messageText, accumulatedAnnotations, accumulatedImages, activeFunctionCalls);
      State(phase, hadReasoning, data, finishReason, log)
    }

    ghost function About(): Meta
      reads this
    {
      Meta(responseId, chunkId, created, model)
    }

    constructor (responseId: string, model: string)
      ensures Valid() && Now() == FRESH && About() == Meta(responseId, responseId, 0, model)
    {
      this.responseId := responseId;
      this.model := model;
      phase := NotStarted;
      hadReasoning := false;
      reasoningText := "";
      messageText := "";
      accumulatedAnnotations := [];
      accumulatedImages := [];
      finishReason := None;
      activeFunctionCalls := [];
      chunkId := responseId;
      msgId := MessageId(responseId);
      respId := ResponseId(responseId);
      created := 0;
      log := [];
    }

    function MessageOutputIndex(): int
      reads this
    {
      if hadReasoning then 1 else 0
    }

    method EnsureInitialEvents()
      requires Valid()
      modifies `phase, `log
      ensures phase == (if old(phase) == NotStarted then Initiated else old(phase))
      ensures log == old(log) + InitialEvents(About(), old(Now()))
    {
      if phase != NotStarted {
        return;
      }
      phase := Initiated;
      var response := Response(respId, created, Pending, model, [], None);
      log := log + [Created(response), InProgress(response)];
    }

    method CloseReasoningItem(status: Status)
      modifies `phase, `log
      ensures phase == (if old(phase) == Reasoning then ReasoningDone else old(phase))
      ensures log == old(log) + ClosingEvents(About(), old(Now()), status)
    {
      if phase != Reasoning {
        return;
      }
      phase := ReasoningDone;
      var part := Part(reasoningText, []);
      log := log + [PartDone(0, part), ItemDone(0, ReasoningItem(ReasoningId(chunkId), status, [part]))];
    }

    method StartMessageItem()
      requires Valid()
      modifies `phase, `log
      ensures phase == Begun(old(phase))
      ensures log == old(log) + if Rank(old(phase)) < Rank(MessageInProgress) then StartingEvents(About(), old(Now())) else []
    {
      if Rank(phase) >= Rank(MessageInProgress) {
        return;
      }
      phase := MessageInProgress;
      var index := MessageOutputIndex();
      log := log + [ItemAdded(index, MessageItem(msgId, Pending, [])), PartAdded(index)];
    }

    /** Before any content of the message: open reasoning is closed and the message item started. */
    method BeginMessageItem(status: Status)
      requires Valid()
      modifies `phase, `log
      ensures phase == Begun(old(phase)) && log == old(log) + BeginEvents(About(), old(Now()), status)
    {
      ghost var st, m := Now(), About();
      EnsureInitialEvents();
      if Rank(phase) < Rank(MessageInProgress) {
        CloseReasoningItem(status);
        StartMessageItem();
        assert log == st.log + InitialEvents(m, st) + ClosingEvents(m, st, status) + StartingEvents(m, st);
        AppendThree(st.log, InitialEvents(m, st), ClosingEvents(m, st, status), StartingEvents(m, st));
      }
    }

    method TakeReasoning(reasoning: string)
      requires Valid()
      modifies `phase, `hadReasoning, `reasoningText, `log
      ensures Now() == OnReasoning(About(), old(Now()), reasoning)
    {
      if reasoning == "" {
        return;
      }
      EnsureInitialEvents();
      if Rank(phase) < Rank(Reasoning) {
        phase := Reasoning;
        hadReasoning := true;
        log := log + [ItemAdded(0, ReasoningItem(ReasoningId(chunkId), Pending, [])), PartAdded(0)];
      }
      reasoningText := reasoningText + reasoning;
      log := log + [TextDelta(0, reasoning)];
    }

    method TakeRole(isAssistant: bool)
      requires Valid()
      modifies `phase, `log
      ensures Now() == OnRole(About(), old(Now()), isAssistant)
    {
      if isAssistant && Rank(phase) < Rank(Reasoning) {
        EnsureInitialEvents();
        StartMessageItem();
      }
    }

    method TakeContent(content: string)
      requires Valid()
      modifies `phase, `messageText, `log
      ensures Now() == OnContent(About(), old(Now()), content)
    {
      if content == "" {
        return;
      }
      BeginMessageItem(Done);
      messageText := messageText + content;
      log := log + [TextDelta(MessageOutputIndex(), content)];
    }

    method TakeAnnotations(anns: seq<RawAnnotation>)
      modifies `accumulatedAnnotations
      ensures accumulatedAnnotations == old(accumulatedAnnotations) + ConvertAnnotations(anns)
    {
      for k := 0 to |anns|
        invariant accumulatedAnnotations == old(accumulatedAnnotations) + ConvertAnnotations(anns[..k])
      {
        assert anns[..k + 1][..k] == anns[..k];
        var transformed := ConvertAnnotation(anns[k]);
        if transformed.Some? {
          accumulatedAnnotations := accumulatedAnnotations + [transformed.value];
        }
      }
      assert anns[..|anns|] == anns;
    }

    method TakeImages(urls: seq<string>)
      modifies `accumulatedImages
      ensures accumulatedImages == old(accumulatedImages) + Payloads(urls)
    {
      for k := 0 to |urls|
        invariant accumulatedImages == old(accumulatedImages) + Payloads(urls[..k])
      {
        assert urls[..k + 1][..k] == urls[..k];
        var payload := Base64Of(urls[k]);
        if payload != "" {
          accumulatedImages := accumulatedImages + [payload];
        }
      }
      assert urls[..|urls|] == urls;
    }

    method TakeToolDelta(td: ToolDelta)
      requires Valid()
      modifies `phase, `activeFunctionCalls, `log
      ensures phase == (if td.id.Absent? then old(phase) else Begun(old(phase)))
      ensures activeFunctionCalls == CallsAfter(old(Now()), td)
      ensures log == old(log) + ToolEvents(About(), old(Now()), td)
    {
      var index := MessageOutputIndex() + 1 + td.index.GetOr(0);
      if !td.id.Absent? {
        BeginMessageItem(Done);
        var id, name := IdText(td.id), td.name.GetOr("");
        log := log + [ItemAdded(index, FunctionCallItem(FunctionCallId(id), id, name, "", Pending))];
        activeFunctionCalls := activeFunctionCalls + [ActiveCall(index, FunctionCallId(id), id, name, "")];
      }
      if td.arguments != "" {
        var found := FindCall(activeFunctionCalls, index);
        if found.Some? {
          var call := activeFunctionCalls[found.value];
          activeFunctionCalls := activeFunctionCalls[found.value := call.(arguments := call.arguments + td.arguments)];
        }
        log := log + [ArgumentsDelta(index, CallIdAt(activeFunctionCalls, index), td.arguments)];
      }
    }

    method TakeToolDeltas(tds: seq<ToolDelta>)
      requires Valid()
      modifies `phase, `activeFunctionCalls, `log
      ensures Now() == OnToolDeltas(About(), old(Now()), tds)
    {
      for k := 0 to |tds|
        invariant Now() == OnToolDeltas(About(), old(Now()), tds[..k])
      {
        assert tds[..k + 1][..k] == tds[..k];
        TakeToolDelta(tds[k]);
      }
      assert tds[..|tds|] == tds;
    }

    /** Reasoning is looked at before the role, so that the reasoning item comes before the message item. */
    method TakeTexts(delta: Delta)
      requires Valid()
      modifies `phase, `hadReasoning, `reasoningText, `messageText, `log
      ensures Now() == OnTexts(About(), old(Now()), delta)
    {
      TakeReasoning(delta.reasoning);
      TakeRole(delta.role == Some("assistant"));
      TakeContent(delta.content);
    }

    method TakeDelta(delta: Delta)
      requires Valid()
      modifies `phase, `hadReasoning, `reasoningText, `messageText, `accumulatedAnnotations, `accumulatedImages,
               `activeFunctionCalls, `log
      ensures Now() == OnDelta(About(), old(Now()), delta)
    {
      TakeTexts(delta);
      TakeExtras(delta);
      TakeToolDeltas(delta.toolCalls);
    }

    method TakeExtras(delta: Delta)
      modifies `accumulatedAnnotations, `accumulatedImages
      ensures Now() == OnExtras(old(Now()), delta)
    {
      TakeAnnotations(delta.annotations);
      TakeImages(delta.images);
    }

    /** Every call is done, at its own index. */
    method CloseCalls(status: Status)
      modifies `log
      ensures log == old(log) + CallsDone(activeFunctionCalls, status)
    {
      for k := 0 to |activeFunctionCalls|
        invariant activeFunctionCalls == old(activeFunctionCalls)
        invariant log == old(log) + CallsDone(activeFunctionCalls[..k], status)
      {
        var fc := activeFunctionCalls[k];
        log := log + [ItemDone(fc.outputIndex, CallResult(fc, status))];
        assert CallsDone(activeFunctionCalls[..k + 1], status) ==
               CallsDone(activeFunctionCalls[..k], status) + [ItemDone(fc.outputIndex, CallResult(fc, status))];
      }
      assert activeFunctionCalls[..|activeFunctionCalls|] == activeFunctionCalls;
    }

    /** Every image is added and done, after the calls. */
    method EmitImages(start: int, status: Status) returns (output: seq<Item>)
      modifies `log
      ensures log == old(log) + ImageEvents(About(), start, accumulatedImages, status)
      ensures output == ImageResults(About(), accumulatedImages, status)
    {
      output := [];
      for k := 0 to |accumulatedImages|
        invariant accumulatedImages == old(accumulatedImages) && About() == old(About())
        invariant log == old(log) + ImageEvents(About(), start, accumulatedImages[..k], status)
        invariant output == ImageResults(About(), accumulatedImages[..k], status)
      {
        ghost var shown := accumulatedImages[..k + 1];
        assert shown[..k] == accumulatedImages[..k];
        var added := ImageItem(ImageId(chunkId, k), Pending, None);
        var done := ImageItem(ImageId(chunkId, k), status, Some(accumulatedImages[k]));
        log := log + [ItemAdded(start + k, added), ItemDone(start + k, done)];
        output := output + [done];
        assert output == ImageResults(About(), shown, status);
      }
      assert accumulatedImages[..|accumulatedImages|] == accumulatedImages;
    }

    method CallOutput(status: Status) returns (output: seq<Item>)
      ensures output == CallResults(activeFunctionCalls, status)
    {
      output := [];
      for k := 0 to |activeFunctionCalls|
        invariant output == CallResults(activeFunctionCalls[..k], status)
      {
        output := output + [CallResult(activeFunctionCalls[k], status)];
        assert output == CallResults(activeFunctionCalls[..k + 1], status);
      }
      assert activeFunctionCalls[..|activeFunctionCalls|] == activeFunctionCalls;
    }

    /** The output array: reasoning, message, calls and images; the events of the images are emitted on the way. */
    method CloseItems(status: Status) returns (output: seq<Item>)
      requires Valid()
      modifies `log
      ensures output == FinalOutput(About(), hadReasoning, Now().data, finishReason, status)
      ensures log == old(log) + ItemsDone(About(), hadReasoning, Now().data, finishReason, status)
    {
      var index := MessageOutputIndex();
      CloseCalls(status);
      var part := Part(messageText, accumulatedAnnotations);
      var message := MessageItem(msgId, status, [part]);
      log := log + [PartDone(index, part), ItemDone(index, message)];
      output := [];
      if hadReasoning {
        output := output + [ReasoningItem(ReasoningId(chunkId), status, [Part(reasoningText, [])])];
      }
      output := output + [message];
      var calls := CallOutput(status);
      var images := EmitImages(index + 1 + |activeFunctionCalls|, ImageStatusOf(finishReason));
      output := output + calls + images;
      AppendThree(old(log), CallsDone(activeFunctionCalls, status), [PartDone(index, part), ItemDone(index, message)],
                  ImageEvents(About(), index + 1 + |activeFunctionCalls|, accumulatedImages,
                              ImageStatusOf(finishReason)));
    }

    static lemma AppendThree(a: seq<Event>, b: seq<Event>, c: seq<Event>, d: seq<Event>)
      ensures a + b + c + d == a + (b + c + d)
    {
    }

    /** `emit_completion_events`: everything still open is closed and the completed response reported. */
    method EmitCompletionEvents(status: Status, usage: Option<Json>)
      requires Valid()
      modifies `phase, `log
      ensures Now() == Complete(About(), old(Now()), status, usage)
    {
      BeginMessageItem(status);
      ghost var begun := log;
      var output := CloseItems(status);
      var response := Response(respId, created, status, model, output, usage);
      log := log + [Completed(response)];
      phase := Finished;
      ghost var items := ItemsDone(About(), hadReasoning, Now().data, finishReason, status);
      assert begun + items + [Completed(response)] == begun + (items + [Completed(response)]);
    }

    method TakeChoice(choice: Choice, usage: Option<Json>)
      requires Valid()
      modifies `phase, `hadReasoning, `reasoningText, `messageText, `accumulatedAnnotations, `accumulatedImages,
               `activeFunctionCalls, `finishReason, `log
      ensures Now() == OnChoice(About(), old(Now()), choice, usage)
    {
      if choice.delta.Some? {
        TakeDelta(choice.delta.value);
      }
      var finish := FinishOf(choice);
      if finish.Some? {
        finishReason := finish;
        EmitCompletionEvents(StatusOf(finish.value), usage);
      }
    }

    /** `transform_chunk`: the events that one chunk gives rise to. */
    method TransformChunk(chunk: Chunk) returns (events: seq<Event>)
      requires Valid()
      modifies this
      ensures Valid() && (About(), Now()) == OnChunk(old(About()), old(Now()), chunk)
      ensures log == old(log) + events
    {
      var before := |log|;
      if chunk.id.Some? && chunkId == responseId {
        chunkId := chunk.id.value;
        msgId := MessageId(chunkId);
        respId := ResponseId(chunkId);
      }
      if chunk.created.Some? && created == 0 {
        created := chunk.created.value;
      }
      assert About() == Learn(old(About()), chunk) && Now() == old(Now());
      TakeChoices(chunk.choices, chunk.usage);
      ChoicesExtendLog(About(), old(Now()), chunk.choices, chunk.usage);
      events := log[before..];
    }

    method TakeChoices(choices: seq<Choice>, usage: Option<Json>)
      requires Valid()
      modifies `phase, `hadReasoning, `reasoningText, `messageText, `accumulatedAnnotations, `accumulatedImages,
               `activeFunctionCalls, `finishReason, `log
      ensures Now() == OnChoices(About(), old(Now()), choices, usage)
    {
      for k := 0 to |choices|
        invariant Now() == OnChoices(About(), old(Now()), choices[..k], usage)
      {
        assert choices[..k + 1][..k] == choices[..k];
        TakeChoice(choices[k], usage);
      }
      assert choices[..|choices|] == choices;
    }

    /** `finalize`: the events that close a stream that ended without a finish reason. */
    method FinalizeStream() returns (events: seq<Event>)
      requires Valid()
      modifies `phase, `finishReason, `log
      ensures Valid() && Now() == Finalize(About(), old(Now())) && log == old(log) + events
    {
      if phase == NotStarted || phase == Finished {
        return [];
      }
      var before := |log|;
      if finishReason.None? {
        finishReason := Some(Length);
      }
      EmitCompletionEvents(Incomplete, None);
      assert log == old(log) + log[before..];
      events := log[before..];
    }
  }
}
