/** `openai.go`: the chat messages the transcript, the log and the stream all carry. */
module Messages {
  import opened Wrappers

  /** A requested tool invocation; `arguments` is still text. */
  datatype ToolCall = ToolCall(id: string, kind: string, name: string, arguments: string)

  datatype ContentPart = ContentPart(kind: string, text: string, image: Option<string>)

  datatype Message = Message(
    role: string,
    content: string,
    parts: seq<ContentPart>,
    name: string,
    toolCallId: string,
    toolCalls: seq<ToolCall>)

  function TextMessage(role: string, content: string): Message {
    Message(role, content, [], "", "", [])
  }

  function ToolMessage(callId: string, name: string, content: string): Message {
    Message("tool", content, [], name, callId, [])
  }
}
