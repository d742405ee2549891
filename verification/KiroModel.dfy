/** The unified messages that all requests are converted to, and the entries of a Kiro payload. */
module KiroModel {
  import opened Wrappers

  datatype Role = User | Assistant | Other(name: string)

  datatype ToolCall = ToolCall(id: string, name: string, arguments: string)

  datatype ToolResult = ToolResult(toolUseId: string, content: string)

  /** A content block; the input of a tool use is its JSON text. Images are only told apart from the rest. */
  datatype Block =
    | TextBlock(text: string)
    | ToolResultBlock(toolUseId: string, content: string)
    | ToolUseBlock(id: string, name: string, input: string)
    | ImageBlock(url: string)

  datatype Content = Text(text: string) | Blocks(blocks: seq<Block>)

  datatype Message = Message(
    role: Role, content: Content, toolCalls: Option<seq<ToolCall>>, toolResults: Option<seq<ToolResult>>)

  datatype KiroResult = KiroResult(toolUseId: string, text: string)

  datatype ToolUse = ToolUse(id: string, name: string, input: string)

  /** An entry of the payload. The tool uses of an assistant entry are the values of a hash map: they have no order. */
  datatype Entry =
    | UserEntry(content: string, toolResults: seq<KiroResult>)
    | AssistantEntry(content: string, toolUses: map<string, ToolUse>)

  datatype Payload = Payload(history: seq<Entry>, current: Entry)

  const SYNTHETIC := UserEntry("(continued)", [])

  function BlockText(b: Block): string {
    match b
    case TextBlock(text) => text
    case ToolResultBlock(_, content) => content
    case _ => ""
  }

  function BlocksText(blocks: seq<Block>): string {
    if blocks == [] then "" else BlocksText(blocks[..|blocks| - 1]) + BlockText(blocks[|blocks| - 1])
  }

  /** `extract_text_content`. */
  function TextOf(c: Content): string {
    match c
    case Text(text) => text
    case Blocks(blocks) => BlocksText(blocks)
  }

  function OrPlaceholder(text: string, placeholder: string): string {
    if text == "" then placeholder else text
  }

  const EMPTY := "(empty)"
  const EMPTY_RESULT := "(empty result)"

  function HasCalls(m: Message): bool {
    m.toolCalls.GetOr([]) != []
  }

  function HasResults(m: Message): bool {
    m.toolResults.GetOr([]) != []
  }

  predicate HasResultBlock(c: Content) {
    c.Blocks? && exists k | 0 <= k < |c.blocks| :: c.blocks[k].ToolResultBlock?
  }

  predicate HasUseBlock(c: Content) {
    c.Blocks? && exists k | 0 <= k < |c.blocks| :: c.blocks[k].ToolUseBlock?
  }

  function Roles(ms: seq<Message>): seq<Role> {
    seq(|ms|, k requires 0 <= k < |ms| => ms[k].role)
  }

  /** All calls of assistant messages, in order. */
  function Calls(ms: seq<Message>): seq<ToolCall> {
    if ms == [] then []
    else
      var m := ms[|ms| - 1];
      Calls(ms[..|ms| - 1]) + if m.role == Assistant then m.toolCalls.GetOr([]) else []
  }

  /** All results of user messages, in order. */
  function Results(ms: seq<Message>): seq<ToolResult> {
    if ms == [] then []
    else
      var m := ms[|ms| - 1];
      Results(ms[..|ms| - 1]) + if m.role == User then m.toolResults.GetOr([]) else []
  }
}
