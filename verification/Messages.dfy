/** The conversation entries shared by the session store, the runner and the context governor.

    A dictionary key that is absent or falsy in the source is the empty value of the field here:
    the empty string for identifiers and names, the empty sequence for `tool_calls`. */
module Messages {

  datatype Option<+T> = None | Some(value: T)

  datatype Role = System | User | Assistant | Tool | OtherRole

  /** One element of a multimodal content list. */
  datatype Block =
    | TextBlock(text: string)
    | ImageBlock(inline: bool, path: string)  // inline: the url starts with "data:image/"
    | OtherBlock(payload: string)

  datatype Content = NoContent | Text(text: string) | Blocks(blocks: seq<Block>)

  /** One element of `tool_calls`; providers may send something that is not a dictionary. */
  datatype ToolCall = NotADict | Call(id: string, name: string)

  /** Fields that never take part in comparing two entries. */
  datatype Stamp = Stamp(timestamp: Option<nat>, latencyMs: Option<nat>, sessionKey: string, command: bool)

  datatype Message = Message(
    role: Role,
    content: Content,
    toolCalls: seq<ToolCall>,
    toolCallId: string,
    name: string,
    reasoning: string,
    thinking: string,
    stamp: Stamp)

  const NO_STAMP := Stamp(None, None, "", false)

  function Plain(role: Role, content: Content): Message {
    Message(role, content, [], "", "", "", "", NO_STAMP)
  }

  function ToolResult(id: string, name: string, content: Content): Message {
    Message(Tool, content, [], id, name, "", "", NO_STAMP)
  }
}
