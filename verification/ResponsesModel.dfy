/** Chat Completion chunks and messages, and the Responses API items and events made from them. */
module ResponsesModel {
  import opened Wrappers
  import opened Text

  /** A JSON value that is only passed on. */
  datatype Json = Number(n: int) | String(s: string) | Other(text: string)

  datatype Citation = Citation(
    startIndex: Option<Json>, endIndex: Option<Json>, url: Option<Json>, title: Option<Json>)

  /** An annotation as a provider sends it. */
  datatype RawAnnotation = RawUrlCitation(citation: Option<Citation>) | RawOther(value: Json)

  /** An annotation as the Responses API shows it. */
  datatype Annotation =
    | UrlCitation(startIndex: Json, endIndex: Json, url: Json, title: Json)
    | Passed(value: Json)

  function ConvertAnnotation(a: RawAnnotation): Option<Annotation> {
    match a
    case RawUrlCitation(Some(c)) =>
      Some(UrlCitation(c.startIndex.GetOr(Number(0)), c.endIndex.GetOr(Number(0)),
                       c.url.GetOr(String("")), c.title.GetOr(String(""))))
    case RawUrlCitation(None) => None
    case RawOther(value) => Some(Passed(value))
  }

  function ConvertAnnotations(anns: seq<RawAnnotation>): seq<Annotation> {
    if anns == [] then []
    else
      var init := ConvertAnnotations(anns[..|anns| - 1]);
      match ConvertAnnotation(anns[|anns| - 1])
      case Some(a) => init + [a]
      case None => init
  }

  /** Strips the prefix of a data URL, up to its first comma. */
  function Base64Of(url: string): string {
    match Find(url, ",")
    case Some(i) => url[i + 1..]
    case None => url
  }

  /** The image payloads of a list of image URLs; an image without a payload is dropped. */
  function Payloads(urls: seq<string>): seq<string> {
    if urls == [] then []
    else
      var init := Payloads(urls[..|urls| - 1]);
      var payload := Base64Of(urls[|urls| - 1]);
      if payload == "" then init else init + [payload]
  }

  /** The `id` of a tool-call delta: absent, present but not a string, or a string. */
  datatype IdField = Absent | NotText | Id(text: string)

  function IdText(id: IdField): string {
    if id.Id? then id.text else ""
  }

  datatype ToolDelta = ToolDelta(index: Option<int>, id: IdField, name: Option<string>, arguments: string)

  /** A delta; text that is absent is empty, and so are lists. */
  datatype Delta = Delta(
    reasoning: string,
    role: Option<string>,
    content: string,
    annotations: seq<RawAnnotation>,
    images: seq<string>,
    toolCalls: seq<ToolDelta>)

  datatype Choice = Choice(delta: Option<Delta>, finishReason: Option<string>)

  datatype Chunk = Chunk(id: Option<string>, created: Option<int>, choices: seq<Choice>, usage: Option<Json>)

  /** The finish reasons that are told apart. */
  datatype Finish = Length | ContentFilter | Stop

  function ParseFinish(reason: string): Finish {
    if reason == "length" then Length else if reason == "content_filter" then ContentFilter else Stop
  }

  /** An empty finish reason or the text "null" is no finish reason. */
  function FinishOf(c: Choice): Option<Finish> {
    match c.finishReason
    case Some(s) => if s == "" || s == "null" then None else Some(ParseFinish(s))
    case None => None
  }

  /** The `status` of responses and items. */
  datatype Status = Pending | Done | Incomplete | Failed

  function StatusOf(f: Finish): Status {
    if f.Stop? then Done else Incomplete
  }

  function ImageStatusOf(f: Option<Finish>): Status {
    match f
    case Some(Length) => Incomplete
    case Some(ContentFilter) => Failed
    case _ => Done
  }

  function ResponseId(chatId: string): string {
    "resp_" + chatId
  }

  function MessageId(chatId: string): string {
    "msg_" + chatId
  }

  function ReasoningId(chatId: string): string {
    "rs_" + chatId
  }

  function FunctionCallId(callId: string): string {
    "fc_" + callId
  }

  datatype Part = Part(text: string, annotations: seq<Annotation>)

  datatype Item =
    | ReasoningItem(id: string, status: Status, content: seq<Part>)
    | MessageItem(id: string, status: Status, content: seq<Part>)
    | FunctionCallItem(id: string, callId: string, name: string, arguments: string, status: Status)
    | ImageItem(id: string, status: Status, payload: Option<string>)

  datatype Response = Response(
    id: string, createdAt: int, status: Status, model: string, output: seq<Item>, usage: Option<Json>)

  datatype Event =
    | Created(response: Response)
    | InProgress(response: Response)
    | ItemAdded(index: int, item: Item)
    | PartAdded(index: int)
    | TextDelta(index: int, delta: string)
    | ArgumentsDelta(index: int, callId: string, delta: string)
    | PartDone(index: int, part: Part)
    | ItemDone(index: int, item: Item)
    | Completed(response: Response)

  /** What the text of a finish reason means for the statuses of a response and its items. */
  predicate HasStatuses(r: Response, reason: string) {
    && r.status == (if reason == "length" || reason == "content_filter" then Incomplete else Done)
    && forall k | 0 <= k < |r.output| :: HasItemStatus(r.output[k], reason)
  }

  predicate HasItemStatus(item: Item, reason: string) {
    item.status ==
    if item.ImageItem? then if reason == "length" then Incomplete else if reason == "content_filter" then Failed else Done
    else if reason == "length" || reason == "content_filter" then Incomplete
    else Done
  }

  /** The identifiers in a response are made from that of the chat, and for calls from their own. */
  predicate HasIdentifiers(r: Response, chatId: string) {
    r.id == "resp_" + chatId && forall k | 0 <= k < |r.output| :: HasIdentifier(r.output[k], chatId)
  }

  predicate HasIdentifier(item: Item, chatId: string) {
    match item
    case ReasoningItem(id, _, _) => id == "rs_" + chatId
    case MessageItem(id, _, _) => id == "msg_" + chatId
    case FunctionCallItem(id, callId, _, _, _) => id == "fc_" + callId
    case ImageItem(id, _, _) => chatId + "_img_" <= id
  }

  /** An annotation as it is shown; what a citation lacks is zero or empty. */
  predicate IsShownAs(a: RawAnnotation, shown: Annotation) {
    match a
    case RawOther(value) => shown == Passed(value)
    case RawUrlCitation(Some(c)) =>
      && shown.UrlCitation?
      && shown.startIndex == (match c.startIndex case Some(n) => n case None => Number(0))
      && shown.endIndex == (match c.endIndex case Some(n) => n case None => Number(0))
      && shown.url == (match c.url case Some(u) => u case None => String(""))
      && shown.title == (match c.title case Some(t) => t case None => String(""))
    case RawUrlCitation(None) => false
  }

  /** All annotations but citations without their object. */
  function Showable(anns: seq<RawAnnotation>): seq<RawAnnotation> {
    if anns == [] then []
    else
      var last := anns[|anns| - 1];
      Showable(anns[..|anns| - 1]) + if last.RawUrlCitation? && last.citation.None? then [] else [last]
  }

  /** Annotations are shown one for one and in order. */
  lemma {:induction false} AnnotationsAreShown(anns: seq<RawAnnotation>)
    ensures |ConvertAnnotations(anns)| == |Showable(anns)|
    ensures forall k | 0 <= k < |Showable(anns)| :: IsShownAs(Showable(anns)[k], ConvertAnnotations(anns)[k])
  {
    if anns == [] {
    } else {
      AnnotationsAreShown(anns[..|anns| - 1]);
    }
  }

  /** The payload of a data URL is what stands behind its first comma; a URL without one is all payload. */
  lemma PayloadOfUrl(prefix: string, payload: string)
    requires ',' !in prefix
    ensures Base64Of(prefix + "," + payload) == payload && Base64Of(prefix) == prefix
  {
    var url := prefix + "," + payload;
    assert OccursAt(url, ",", |prefix|) && url[|prefix| + 1..] == payload;
    forall j: nat | j < |prefix|
      ensures !OccursAt(url, ",", j) && !OccursAt(prefix, ",", j)
    {
      assert url[j] == prefix[j] && prefix[j] in prefix;
      assert url[j..j + 1][0] == url[j] && prefix[j..j + 1][0] == prefix[j];
    }
    FindIs(url, ",", |prefix|);
  }

  predicate HasIndex(e: Event) {
    !e.Created? && !e.InProgress? && !e.Completed?
  }

  /** A finished tool call of an assistant message. */
  datatype ToolCall = ToolCall(id: string, name: string, arguments: string)

  /** The message of a one-shot completion. */
  datatype Message = Message(
    reasoning: string,
    content: string,
    annotations: seq<RawAnnotation>,
    toolCalls: seq<ToolCall>,
    images: seq<string>)

  function Decimal(n: nat): string {
    if n < 10 then [('0' as int + n) as char] else Decimal(n / 10) + [('0' as int + n % 10) as char]
  }

  /** The number that a text of digits stands for. */
  function NumberOf(digits: string): int {
    if digits == "" then 0 else 10 * NumberOf(digits[..|digits| - 1]) + (digits[|digits| - 1] as int - '0' as int)
  }

  lemma {:induction false} DecimalReads(n: nat)
    ensures NumberOf(Decimal(n)) == n
  {
    if n < 10 {
      assert Decimal(n)[..0] == "";
    } else {
      DecimalReads(n / 10);
      assert Decimal(n)[..|Decimal(n)| - 1] == Decimal(n / 10);
    }
  }

  lemma DecimalIsInjective(m: nat, n: nat)
    requires Decimal(m) == Decimal(n)
    ensures m == n
  {
    DecimalReads(m);
    DecimalReads(n);
  }

  function ImageId(chatId: string, index: nat): string {
    chatId + "_img_" + Decimal(index)
  }

  lemma ImageIdIsInjective(chatId: string, m: nat, n: nat)
    requires ImageId(chatId, m) == ImageId(chatId, n)
    ensures m == n
  {
    var prefix := chatId + "_img_";
    assert ImageId(chatId, m)[|prefix|..] == Decimal(m);
    assert ImageId(chatId, n)[|prefix|..] == Decimal(n);
    DecimalIsInjective(m, n);
  }
}
