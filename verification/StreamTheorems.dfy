/** Whole streams: what a client is sent for a stream of chunks, from its first event to its last. */
module StreamTheorems {
  import opened Wrappers
  import opened ResponsesModel
  import opened StreamSteps
  import opened StreamSpec
  import opened StreamLog
  import opened StreamTracking
  import opened StreamCompletion
  import opened StreamRuns
  import opened StreamAgreement
  import opened StreamTransformer
  import OneShot

  function Initially(responseId: string, model: string): Meta {
    Meta(responseId, responseId, 0, model)
  }

  /** All events for a stream: those of its chunks, then those that finalize it. */
  function Relayed(responseId: string, model: string, chunks: seq<Chunk>): seq<Event> {
    var (m, st) := Run(Initially(responseId, model), FRESH, chunks);
    Finalize(m, st).log
  }

  method RelayStream(responseId: string, model: string, chunks: seq<Chunk>) returns (events: seq<Event>)
    ensures events == Relayed(responseId, model, chunks)
  {
    var transformer := new ResponsesStreamTransformer(responseId, model);
    events := [];
    for k := 0 to |chunks|
      invariant transformer.Valid() && fresh(transformer) && transformer.log == events
      invariant (transformer.About(), transformer.Now()) == Run(Initially(responseId, model), FRESH, chunks[..k])
    {
      assert chunks[..k + 1][..k] == chunks[..k];
      var more := transformer.TransformChunk(chunks[k]);
      events := events + more;
    }
    assert chunks[..|chunks|] == chunks;
    var closing := transformer.FinalizeStream();
    events := events + closing;
  }

  /** The steps of all deltas of a stream of chunks. */
  function Ops(chunks: seq<Chunk>): seq<Op> {
    Transcript(Choices(chunks))
  }

  /** All chunks carry one identifier or none, only the last choice may finish, and the deltas come in order. */
  predicate Proper(chunks: seq<Chunk>, responseId: string, chatId: string) {
    OneId(chunks, responseId, chatId) && Ended(Choices(chunks)) && WellFormed(Ops(chunks))
  }

  /** A stream without a finish reason counts as cut off for length. */
  function FinishReason(chunks: seq<Chunk>): Finish {
    Ending(Choices(chunks)).GetOr(Length)
  }

  /** Nothing that a client would have to hear of has arrived. */
  predicate Silent(chunks: seq<Chunk>) {
    Ending(Choices(chunks)).None? && !Started(Ops(chunks)) && Thinking(Ops(chunks)) == ""
  }

  function Reported(log: seq<Event>): Response
    requires log != [] && log[|log| - 1].Completed?
  {
    log[|log| - 1].response
  }

  /** The usage is that of the chunk that finishes the stream. */
  function FinishUsage(chunks: seq<Chunk>): Option<Json> {
    if Ending(Choices(chunks)).None? then None else EndingUsage(chunks)
  }

  function FinishCreated(chunks: seq<Chunk>): int {
    if Ending(Choices(chunks)).None? then FirstCreated(chunks) else EndingCreated(chunks)
  }

  /** A complete log whose response is made of all deltas together. */
  ghost predicate Reports(log: seq<Event>, ops: seq<Op>, chatId: string, model: string, created: int, finish: Finish,
                          usage: Option<Json>) {
    && log != [] && log[|log| - 1].Completed?
    && CompleteLog(log, Reported(log), Started(ops))
    && Reported(log).id == ResponseId(chatId) && Reported(log).model == model && Reported(log).createdAt == created
    && Reported(log).status == StatusOf(finish) && Reported(log).usage == usage
    && Reported(log).output == OneShot.Output(chatId, Shaped(ops), finish)
  }

  lemma CompletionReports(m: Meta, st: State, ops: seq<Op>, finish: Finish, usage: Option<Json>)
    requires Tracks(m, st, ops)
    ensures Reports(Complete(m, st.(finish := Some(finish)), StatusOf(finish), usage).log, ops, m.chunkId, m.model,
                    m.created, finish, usage)
  {
    var st' := st.(finish := Some(finish));
    FinishKeepsLog(m, st, finish);
    CompletesLog(m, st', StatusOf(finish), usage);
    OutputAgrees(m, st, ops, finish);
    var log := Complete(m, st', StatusOf(finish), usage).log;
    var response := FinalResponse(m, st.hadReasoning, st.data, Some(finish), StatusOf(finish), usage);
    assert log[|log| - 1] == Completed(response);
  }

  lemma FinishKeepsLog(m: Meta, st: State, finish: Finish)
    requires LogOk(m, st)
    ensures LogOk(m, st.(finish := Some(finish)))
  {
    var st' := st.(finish := Some(finish));
    forall k | 0 <= k < |st'.data.calls|
      ensures CallLog(st', st'.data.calls[k])
    {
      assert CallLog(st, st.data.calls[k]);
    }
  }

  /** A well-formed stream, finished or cut off, gives rise to nothing or to one complete log. */
  lemma WholeStream(responseId: string, model: string, chunks: seq<Chunk>, chatId: string)
    requires Proper(chunks, responseId, chatId)
    ensures var log := Relayed(responseId, model, chunks);
            if Silent(chunks) then log == []
            else Reports(log, Ops(chunks), chatId, model, FinishCreated(chunks), FinishReason(chunks), FinishUsage(chunks))
  {
    var m := Initially(responseId, model);
    if Ending(Choices(chunks)).Some? {
      var m', st := RunCompletes(m, chunks, chatId);
      CompletionReports(m', st, Ops(chunks), FinishReason(chunks), EndingUsage(chunks));
    } else {
      CutOff(m, chunks, chatId);
    }
  }

  lemma CutOff(m: Meta, chunks: seq<Chunk>, chatId: string)
    requires m.chunkId == m.responseId && m.created == 0 && Proper(chunks, m.responseId, chatId) && Ending(Choices(chunks)).None?
    ensures var log := Finalize(Run(m, FRESH, chunks).0, Run(m, FRESH, chunks).1).log;
            if Silent(chunks) then log == [] else Reports(log, Ops(chunks), chatId, m.model, FirstCreated(chunks), Length, None)
  {
    assert Unfinished(Choices(chunks));
    RunTracks(m, chunks, chatId);
    IdIsKept(m, FRESH, chunks, chatId);
    var (m', st) := Run(m, FRESH, chunks);
    if !Silent(chunks) {
      CompletionReports(m', st, Ops(chunks), Length, None);
    }
  }

  /**
   * Streaming refines the one-shot conversion: the completed output is the one-shot output of the message that the
   * deltas add up to, exactly when no image without a payload comes before one with a payload.
   */
  lemma StreamingRefinesOneShot(responseId: string, model: string, chunks: seq<Chunk>, chatId: string)
    requires Proper(chunks, responseId, chatId) && !Silent(chunks)
    ensures var log := Relayed(responseId, model, chunks);
            && log != [] && log[|log| - 1].Completed? && Reported(log).status == StatusOf(FinishReason(chunks))
            && (Reported(log).output == OneShot.Output(chatId, Assemble(Ops(chunks)), FinishReason(chunks)) <==>
                NoGap(Shown(Ops(chunks))))
  {
    WholeStream(responseId, model, chunks, chatId);
    GapsShow(Meta(responseId, chatId, 0, model), Ops(chunks), FinishReason(chunks));
  }

  /** The text of the finish reason; empty, "null" or missing, it counts as a cut for length. */
  function ReasonText(cs: seq<Choice>): string {
    if cs == [] then "length"
    else
      match cs[|cs| - 1].finishReason
      case Some(text) => if text == "" || text == "null" then "length" else text
      case None => "length"
  }

  /** The statuses of a reported response are those of the finish reason's text, its identifiers those of the chat. */
  lemma ReportedIsMarked(responseId: string, model: string, chunks: seq<Chunk>, chatId: string)
    requires Proper(chunks, responseId, chatId) && !Silent(chunks)
    ensures var log := Relayed(responseId, model, chunks);
            && log != [] && log[|log| - 1].Completed?
            && HasStatuses(Reported(log), ReasonText(Choices(chunks))) && HasIdentifiers(Reported(log), chatId)
  {
    WholeStream(responseId, model, chunks, chatId);
    assert FinishReason(chunks) == ParseFinish(ReasonText(Choices(chunks)));
    OneShot.OutputIsMarked(chatId, Shaped(Ops(chunks)), ReasonText(Choices(chunks)));
  }
}
