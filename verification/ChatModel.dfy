/** OpenAI and Anthropic requests: their messages and the JSON values in them, as far as the converters look. */
module ChatModel {
  import opened Wrappers

  /**
   * A JSON value. Objects, numbers and booleans are only passed on. In an array only the parts that the converters
   * tell apart are typed; fields that are missing or no strings read as empty.
   */
  datatype Value = Null | Str(s: string) | Arr(parts: seq<Part>) | Opaque(json: string)

  /** An array element; the input of a tool use is its canonical JSON text. */
  datatype Part =
    | TextPart(text: Option<string>)
    | ImagePart
    | ToolUsePart(id: string, name: string, input: string)
    | ToolResultPart(toolUseId: string, content: Option<Value>)
    | OtherPart(text: Option<string>)

  datatype Role = System | User | Assistant | ToolRole | Named(name: string)

  datatype ToolCall = ToolCall(id: string, name: string, arguments: string)

  /** A message of an OpenAI request. */
  datatype ChatMessage = ChatMessage(
    role: Role, content: Option<Value>, toolCalls: Option<seq<ToolCall>>, toolCallId: Option<string>)

  /** A message of an Anthropic request. */
  datatype AnthropicMessage = AnthropicMessage(role: Role, content: Value)

  const EMPTY_STRING := Str("")

  function TextOf(content: Option<Value>): string {
    match content
    case Some(Str(s)) => s
    case _ => ""
  }
}
