/** What a chunk stream means: the message its deltas add up to, and the event log a client may rely on. */
module StreamSpec {
  import opened Wrappers
  import opened ResponsesModel

  /** A stream read as elementary steps, in the order in which the fields of its deltas are looked at. */
  datatype Op =
    | Think(text: string)
    | Role(isAssistant: bool)
    | Say(text: string)
    | Show(anns: seq<RawAnnotation>, urls: seq<string>)
    | Call(td: ToolDelta)

  function CallOps(tds: seq<ToolDelta>): seq<Op> {
    seq(|tds|, k requires 0 <= k < |tds| => Call(tds[k]))
  }

  function OpsOf(d: Delta): seq<Op> {
    [Think(d.reasoning), Role(d.role == Some("assistant")), Say(d.content), Show(d.annotations, d.images)]
    + CallOps(d.toolCalls)
  }

  /** The steps of all deltas of a stream of choices. */
  function Transcript(cs: seq<Choice>): seq<Op> {
    if cs == [] then []
    else
      var last := cs[|cs| - 1];
      Transcript(cs[..|cs| - 1]) + if last.delta.Some? then OpsOf(last.delta.value) else []
  }

  // ----- The message obtained by concatenating all deltas -----

  function Thinking(ops: seq<Op>): string {
    if ops == [] then ""
    else
      var init, last := Thinking(ops[..|ops| - 1]), ops[|ops| - 1];
      if last.Think? then init + last.text else init
  }

  function Said(ops: seq<Op>): string {
    if ops == [] then ""
    else
      var init, last := Said(ops[..|ops| - 1]), ops[|ops| - 1];
      if last.Say? then init + last.text else init
  }

  function Annotated(ops: seq<Op>): seq<RawAnnotation> {
    if ops == [] then []
    else
      var init, last := Annotated(ops[..|ops| - 1]), ops[|ops| - 1];
      if last.Show? then init + last.anns else init
  }

  function Shown(ops: seq<Op>): seq<string> {
    if ops == [] then []
    else
      var init, last := Shown(ops[..|ops| - 1]), ops[|ops| - 1];
      if last.Show? then init + last.urls else init
  }

  function Tools(ops: seq<Op>): seq<ToolDelta> {
    if ops == [] then []
    else
      var init, last := Tools(ops[..|ops| - 1]), ops[|ops| - 1];
      if last.Call? then init + [last.td] else init
  }

  /** The deltas that open a call: those with an identifier. */
  function Openings(tds: seq<ToolDelta>): seq<ToolDelta> {
    if tds == [] then []
    else
      var init, last := Openings(tds[..|tds| - 1]), tds[|tds| - 1];
      if last.id.Absent? then init else init + [last]
  }

  /** All argument text for a tool index, wherever its pieces stand. */
  function ArgumentsFor(tds: seq<ToolDelta>, index: int): string {
    if tds == [] then ""
    else
      var init, last := ArgumentsFor(tds[..|tds| - 1], index), tds[|tds| - 1];
      if last.index.GetOr(0) == index then init + last.arguments else init
  }

  function CallsOf(tds: seq<ToolDelta>): seq<ToolCall> {
    var opens := Openings(tds);
    seq(|opens|, k requires 0 <= k < |opens| =>
      ToolCall(IdText(opens[k].id), opens[k].name.GetOr(""), ArgumentsFor(tds, k)))
  }

  function Assemble(ops: seq<Op>): Message {
    Message(Thinking(ops), Said(ops), Annotated(ops), CallsOf(Tools(ops)), Shown(ops))
  }

  // ----- Well-formed streams -----

  /** The message has begun: with content, with a call, or with the assistant role when there is no reasoning. */
  predicate Started(ops: seq<Op>) {
    ops != [] && (Started(ops[..|ops| - 1]) || Starts(Thinking(ops[..|ops| - 1]), ops[|ops| - 1]))
  }

  predicate Starts(thinking: string, op: Op) {
    match op
    case Role(isAssistant) => isAssistant && thinking == ""
    case Say(text) => text != ""
    case Call(td) => !td.id.Absent?
    case _ => false
  }

  /** Calls are opened in the order 0, 1, 2, ..., and arguments only go to calls that are open. */
  predicate ToolFits(open: nat, td: ToolDelta) {
    var index := td.index.GetOr(0);
    if !td.id.Absent? then index == open else td.arguments != "" ==> 0 <= index < open
  }

  predicate Fits(before: seq<Op>, op: Op) {
    match op
    case Think(text) => text != "" ==> !Started(before)
    case Call(td) => ToolFits(|Openings(Tools(before))|, td)
    case _ => true
  }

  /** No reasoning after the message has begun, and calls in order. */
  predicate WellFormed(ops: seq<Op>) {
    ops != [] ==> WellFormed(ops[..|ops| - 1]) && Fits(ops[..|ops| - 1], ops[|ops| - 1])
  }

  // ----- Event logs -----

  /** The events about one output index. */
  function At(log: seq<Event>, index: int): seq<Event> {
    if log == [] then []
    else
      var init, last := At(log[..|log| - 1], index), log[|log| - 1];
      if HasIndex(last) && last.index == index then init + [last] else init
  }

  lemma {:induction false} AtAppend(a: seq<Event>, b: seq<Event>, index: int)
    ensures At(a + b, index) == At(a, index) + At(b, index)
  {
    if b == [] {
      assert a + b == a;
    } else {
      assert (a + b)[..|a + b| - 1] == a + b[..|b| - 1];
      AtAppend(a, b[..|b| - 1], index);
    }
  }

  /** The text that a run of deltas adds up to. */
  function Joined(evs: seq<Event>): string {
    if evs == [] then ""
    else
      var init, last := Joined(evs[..|evs| - 1]), evs[|evs| - 1];
      if last.TextDelta? || last.ArgumentsDelta? then init + last.delta else init
  }

  ghost predicate TextDeltas(evs: seq<Event>, index: int, text: string) {
    (forall k | 0 <= k < |evs| :: evs[k].TextDelta? && evs[k].index == index) && Joined(evs) == text
  }

  ghost predicate ArgumentsDeltas(evs: seq<Event>, index: int, callId: string, text: string) {
    && (forall k | 0 <= k < |evs| :: evs[k].ArgumentsDelta? && evs[k].index == index && evs[k].callId == callId)
    && Joined(evs) == text
  }

  /** A text item that has been added and has received its deltas so far. */
  ghost predicate OpenText(evs: seq<Event>, index: int, added: Item, text: string) {
    && |evs| >= 2 && evs[..2] == [ItemAdded(index, added), PartAdded(index)]
    && TextDeltas(evs[2..], index, text)
  }

  /** The same, closed: first its part, then the item. */
  ghost predicate ClosedText(evs: seq<Event>, index: int, added: Item, part: Part, done: Item) {
    && |evs| >= 4 && evs[|evs| - 2..] == [PartDone(index, part), ItemDone(index, done)]
    && OpenText(evs[..|evs| - 2], index, added, part.text)
  }

  ghost predicate OpenCall(evs: seq<Event>, index: int, added: Item, callId: string, text: string) {
    |evs| >= 1 && evs[0] == ItemAdded(index, added) && ArgumentsDeltas(evs[1..], index, callId, text)
  }

  /**
   * The whole life of an item at its index: added once and empty, then deltas that add up to its text, then done
   * once. The final item is the entry of the completed response, except that reasoning closed before the end of
   * the stream is reported as completed there and then.
   */
  ghost predicate Lifecycle(evs: seq<Event>, index: int, item: Item, closedEarly: bool) {
    match item
    case ReasoningItem(id, status, content) =>
      |content| == 1 &&
      ClosedText(evs, index, ReasoningItem(id, Pending, []), content[0],
                 ReasoningItem(id, if closedEarly then Done else status, content))
    case MessageItem(id, status, content) =>
      |content| == 1 && ClosedText(evs, index, MessageItem(id, Pending, []), content[0], item)
    case FunctionCallItem(id, callId, name, arguments, status) =>
      && evs != [] && evs[|evs| - 1] == ItemDone(index, item)
      && OpenCall(evs[..|evs| - 1], index, FunctionCallItem(id, callId, name, "", Pending), callId, arguments)
    case ImageItem(id, status, payload) =>
      evs == [ItemAdded(index, ImageItem(id, Pending, None)), ItemDone(index, item)]
  }

  /** After the two opening events, every event is about one of the first `count` output items. */
  ghost predicate Opened(log: seq<Event>, count: int) {
    && |log| >= 2 && log[0].Created? && log[1].InProgress?
    && forall k | 2 <= k < |log| :: HasIndex(log[k]) && 0 <= log[k].index < count
  }

  /** The two events a log begins with tell of an empty response in progress. */
  predicate Announced(log: seq<Event>, id: string) {
    && |log| >= 2 && log[0].Created? && log[1] == InProgress(log[0].response)
    && log[0].response.id == id && log[0].response.status == Pending && log[0].response.output == []
  }

  /** A complete log: one completed response, at the end, and the full life of each of its items at its index. */
  ghost predicate CompleteLog(log: seq<Event>, response: Response, closedEarly: bool) {
    && log != [] && log[|log| - 1] == Completed(response) && Announced(log, response.id)
    && Opened(log[..|log| - 1], |response.output|)
    && forall i | 0 <= i < |response.output| :: Lifecycle(At(log, i), i, response.output[i], closedEarly)
  }
}
