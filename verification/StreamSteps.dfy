/** The steps of the stream transformer as functions on its state. */
module StreamSteps {
  import opened Wrappers
  import opened ResponsesModel

  datatype Phase = NotStarted | Initiated | Reasoning | ReasoningDone | MessageInProgress | Finished

  function Rank(p: Phase): nat {
    match p
    case NotStarted => 0
    case Initiated => 1
    case Reasoning => 2
    case ReasoningDone => 3
    case MessageInProgress => 4
    case Finished => 5
  }

  datatype ActiveCall = ActiveCall(outputIndex: int, id: string, callId: string, name: string, arguments: string)

  /** What has been collected from the deltas. */
  datatype Data = Data(
    reasoningText: string,
    messageText: string,
    annotations: seq<Annotation>,
    images: seq<string>,
    calls: seq<ActiveCall>)

  /** The state of a transformer with the log of everything it has emitted. */
  datatype State = State(phase: Phase, hadReasoning: bool, data: Data, finish: Option<Finish>, log: seq<Event>)

  /** What the events mention besides: identifiers, creation time and model. */
  datatype Meta = Meta(responseId: string, chunkId: string, created: int, model: string)

  const FRESH := State(NotStarted, false, Data("", "", [], [], []), None, [])

  function MessageIndex(st: State): int {
    if st.hadReasoning then 1 else 0
  }

  /** The two events a stream begins with. */
  function InitialEvents(m: Meta, st: State): seq<Event> {
    if st.phase != NotStarted then []
    else
      var r := Response(ResponseId(m.chunkId), m.created, Pending, m.model, [], None);
      [Created(r), InProgress(r)]
  }

  function ReasoningResult(m: Meta, data: Data, status: Status): Item {
    ReasoningItem(ReasoningId(m.chunkId), status, [Part(data.reasoningText, [])])
  }

  /** Open reasoning is closed. */
  function ClosingEvents(m: Meta, st: State, status: Status): seq<Event> {
    if st.phase != Reasoning then []
    else [PartDone(0, Part(st.data.reasoningText, [])), ItemDone(0, ReasoningResult(m, st.data, status))]
  }

  /** The message item is started. */
  function StartingEvents(m: Meta, st: State): seq<Event> {
    var index := MessageIndex(st);
    [ItemAdded(index, MessageItem(MessageId(m.chunkId), Pending, [])), PartAdded(index)]
  }

  /** Before any of its contents the message item is started; open reasoning is closed first. */
  function BeginEvents(m: Meta, st: State, status: Status): seq<Event> {
    if Rank(MessageInProgress) <= Rank(st.phase) then []
    else InitialEvents(m, st) + ClosingEvents(m, st, status) + StartingEvents(m, st)
  }

  function Begun(p: Phase): Phase {
    if Rank(p) < Rank(MessageInProgress) then MessageInProgress else p
  }

  function OnReasoning(m: Meta, st: State, text: string): State {
    if text == "" then st
    else
      var begins := Rank(st.phase) < Rank(Reasoning);
      State(if begins then Reasoning else st.phase, st.hadReasoning || begins,
            st.data.(reasoningText := st.data.reasoningText + text), st.finish,
            st.log + ReasoningEvents(m, st) + [TextDelta(0, text)])
  }

  function ReasoningEvents(m: Meta, st: State): seq<Event> {
    if Rank(Reasoning) <= Rank(st.phase) then []
    else InitialEvents(m, st) + [ItemAdded(0, ReasoningItem(ReasoningId(m.chunkId), Pending, [])), PartAdded(0)]
  }

  function OnRole(m: Meta, st: State, isAssistant: bool): State {
    if isAssistant && Rank(st.phase) < Rank(Reasoning) then
      st.(phase := MessageInProgress, log := st.log + BeginEvents(m, st, Done))
    else st
  }

  function OnContent(m: Meta, st: State, text: string): State {
    if text == "" then st
    else
      State(Begun(st.phase), st.hadReasoning, st.data.(messageText := st.data.messageText + text), st.finish,
            st.log + BeginEvents(m, st, Done) + [TextDelta(MessageIndex(st), text)])
  }

  function OnExtras(st: State, d: Delta): State {
    st.(data := st.data.(annotations := st.data.annotations + ConvertAnnotations(d.annotations),
                         images := st.data.images + Payloads(d.images)))
  }

  /** The position of the call with an output index, if there is one: the first match counts. */
  function FindCall(calls: seq<ActiveCall>, index: int): (r: Option<nat>)
    ensures r.Some? ==> r.value < |calls|
  {
    if calls == [] then None
    else if calls[0].outputIndex == index then Some(0)
    else
      match FindCall(calls[1..], index)
      case Some(k) => Some(k + 1)
      case None => None
  }

  function AppendArguments(calls: seq<ActiveCall>, index: int, arguments: string): seq<ActiveCall> {
    match FindCall(calls, index)
    case Some(k) => calls[k := calls[k].(arguments := calls[k].arguments + arguments)]
    case None => calls
  }

  function CallIdAt(calls: seq<ActiveCall>, index: int): string {
    match FindCall(calls, index)
    case Some(k) => calls[k].callId
    case None => ""
  }

  function CallIndex(st: State, td: ToolDelta): int {
    MessageIndex(st) + 1 + td.index.GetOr(0)
  }

  /** The calls after a tool-call delta: an identifier opens a call, arguments extend the call at their index. */
  function CallsAfter(st: State, td: ToolDelta): seq<ActiveCall> {
    var index, id := CallIndex(st, td), IdText(td.id);
    var known :=
      if td.id.Absent? then st.data.calls
      else st.data.calls + [ActiveCall(index, FunctionCallId(id), id, td.name.GetOr(""), "")];
    if td.arguments == "" then known else AppendArguments(known, index, td.arguments)
  }

  function ToolEvents(m: Meta, st: State, td: ToolDelta): seq<Event> {
    var index, id := CallIndex(st, td), IdText(td.id);
    (if td.id.Absent? then []
     else
       BeginEvents(m, st, Done)
       + [ItemAdded(index, FunctionCallItem(FunctionCallId(id), id, td.name.GetOr(""), "", Pending))])
    + (if td.arguments == "" then []
       else [ArgumentsDelta(index, CallIdAt(CallsAfter(st, td), index), td.arguments)])
  }

  function OnToolDelta(m: Meta, st: State, td: ToolDelta): State {
    State(if td.id.Absent? then st.phase else Begun(st.phase), st.hadReasoning,
          st.data.(calls := CallsAfter(st, td)), st.finish, st.log + ToolEvents(m, st, td))
  }

  function OnToolDeltas(m: Meta, st: State, tds: seq<ToolDelta>): State {
    if tds == [] then st else OnToolDelta(m, OnToolDeltas(m, st, tds[..|tds| - 1]), tds[|tds| - 1])
  }

  function OnDelta(m: Meta, st: State, d: Delta): State {
    OnToolDeltas(m, OnExtras(OnTexts(m, st, d), d), d.toolCalls)
  }

  function OnTexts(m: Meta, st: State, d: Delta): State {
    OnContent(m, OnRole(m, OnReasoning(m, st, d.reasoning), d.role == Some("assistant")), d.content)
  }

  function MessageResult(m: Meta, data: Data, status: Status): Item {
    MessageItem(MessageId(m.chunkId), status, [Part(data.messageText, data.annotations)])
  }

  function CallResult(c: ActiveCall, status: Status): Item {
    FunctionCallItem(c.id, c.callId, c.name, c.arguments, status)
  }

  function CallResults(calls: seq<ActiveCall>, status: Status): seq<Item> {
    seq(|calls|, k requires 0 <= k < |calls| => CallResult(calls[k], status))
  }

  function CallsDone(calls: seq<ActiveCall>, status: Status): seq<Event> {
    seq(|calls|, k requires 0 <= k < |calls| => ItemDone(calls[k].outputIndex, CallResult(calls[k], status)))
  }

  function ImageResults(m: Meta, images: seq<string>, status: Status): seq<Item> {
    seq(|images|, k requires 0 <= k < |images| => ImageItem(ImageId(m.chunkId, k), status, Some(images[k])))
  }

  /** Images are added and done at the end, each at the next free index. */
  function ImageEvents(m: Meta, start: int, images: seq<string>, status: Status): seq<Event> {
    if images == [] then []
    else
      var k := |images| - 1;
      ImageEvents(m, start, images[..k], status)
      + [ItemAdded(start + k, ImageItem(ImageId(m.chunkId, k), Pending, None)),
         ItemDone(start + k, ImageItem(ImageId(m.chunkId, k), status, Some(images[k])))]
  }

  /** The output array of `response.completed`. */
  function FinalOutput(m: Meta, hadReasoning: bool, data: Data, finish: Option<Finish>, status: Status): seq<Item> {
    (if hadReasoning then [ReasoningResult(m, data, status)] else [])
    + [MessageResult(m, data, status)]
    + CallResults(data.calls, status)
    + ImageResults(m, data.images, ImageStatusOf(finish))
  }

  /** All items are closed: calls, message, images. */
  function ItemsDone(m: Meta, hadReasoning: bool, data: Data, finish: Option<Finish>, status: Status): seq<Event> {
    var index := if hadReasoning then 1 else 0;
    CallsDone(data.calls, status)
    + [PartDone(index, Part(data.messageText, data.annotations)), ItemDone(index, MessageResult(m, data, status))]
    + ImageEvents(m, index + 1 + |data.calls|, data.images, ImageStatusOf(finish))
  }

  function FinalResponse(m: Meta, hadReasoning: bool, data: Data, finish: Option<Finish>, status: Status,
                         usage: Option<Json>): Response {
    var output := FinalOutput(m, hadReasoning, data, finish, status);
    Response(ResponseId(m.chunkId), m.created, status, m.model, output, usage)
  }

  /** Reasoning is closed and the message started, if that has not happened yet; then everything is closed. */
  function Complete(m: Meta, st: State, status: Status, usage: Option<Json>): State {
    var response := FinalResponse(m, st.hadReasoning, st.data, st.finish, status, usage);
    st.(phase := Finished,
        log := st.log + BeginEvents(m, st, status)
               + (ItemsDone(m, st.hadReasoning, st.data, st.finish, status) + [Completed(response)]))
  }

  function OnChoice(m: Meta, st: State, c: Choice, usage: Option<Json>): State {
    var a := if c.delta.Some? then OnDelta(m, st, c.delta.value) else st;
    match FinishOf(c)
    case Some(f) => Complete(m, a.(finish := Some(f)), StatusOf(f), usage)
    case None => a
  }

  function OnChoices(m: Meta, st: State, cs: seq<Choice>, usage: Option<Json>): State {
    if cs == [] then st else OnChoice(m, OnChoices(m, st, cs[..|cs| - 1], usage), cs[|cs| - 1], usage)
  }

  /** Identifier and creation time come from the first chunks that carry them. */
  function Learn(m: Meta, c: Chunk): Meta {
    var a := if c.id.Some? && m.chunkId == m.responseId then m.(chunkId := c.id.value) else m;
    if c.created.Some? && a.created == 0 then a.(created := c.created.value) else a
  }

  function OnChunk(m: Meta, st: State, c: Chunk): (Meta, State) {
    (Learn(m, c), OnChoices(Learn(m, c), st, c.choices, c.usage))
  }

  function Run(m: Meta, st: State, chunks: seq<Chunk>): (Meta, State) {
    if chunks == [] then (m, st)
    else
      var (m', st') := Run(m, st, chunks[..|chunks| - 1]);
      OnChunk(m', st', chunks[|chunks| - 1])
  }

  /** A stream that has begun but not been completed is closed as if it had been cut off. */
  function Finalize(m: Meta, st: State): State {
    if st.phase == NotStarted || st.phase == Finished then st
    else Complete(m, if st.finish.None? then st.(finish := Some(Length)) else st, Incomplete, None)
  }

  /** Nothing that has been emitted is taken back. */
  lemma {:induction false} ToolDeltasExtendLog(m: Meta, st: State, tds: seq<ToolDelta>)
    ensures st.log <= OnToolDeltas(m, st, tds).log
  {
    if tds == [] {
    } else {
      ToolDeltasExtendLog(m, st, tds[..|tds| - 1]);
    }
  }

  lemma DeltaExtendsLog(m: Meta, st: State, d: Delta)
    ensures st.log <= OnDelta(m, st, d).log
  {
    var a := OnReasoning(m, st, d.reasoning);
    var b := OnRole(m, a, d.role == Some("assistant"));
    assert st.log <= a.log <= b.log <= OnContent(m, b, d.content).log;
    ToolDeltasExtendLog(m, OnExtras(OnTexts(m, st, d), d), d.toolCalls);
  }

  lemma ChoiceExtendsLog(m: Meta, st: State, c: Choice, usage: Option<Json>)
    ensures st.log <= OnChoice(m, st, c, usage).log
  {
    if c.delta.Some? {
      DeltaExtendsLog(m, st, c.delta.value);
    }
  }

  lemma {:induction false} ChoicesExtendLog(m: Meta, st: State, cs: seq<Choice>, usage: Option<Json>)
    ensures st.log <= OnChoices(m, st, cs, usage).log
  {
    if cs == [] {
    } else {
      ChoicesExtendLog(m, st, cs[..|cs| - 1], usage);
      ChoiceExtendsLog(m, OnChoices(m, st, cs[..|cs| - 1], usage), cs[|cs| - 1], usage);
    }
  }
}
