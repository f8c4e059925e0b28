/** The protocol-neutral chat request. */
module Conversation {
  import opened Wrappers
  import opened Json

  datatype Part = TextPart(text: string) | ImagePart(url: string)

  /** `arguments` is raw JSON text, which need not be well formed. */
  datatype ToolCall = ToolCall(id: string, name: string, arguments: string)

  datatype Message = Message(role: string, content: seq<Part>, name: string, toolCallId: string,
      toolCalls: seq<ToolCall>)

  datatype Tool = Tool(typ: string, name: string, description: string, parameters: Option<Json>)

  /** `toolChoice` and `responseFormat` are passed through as JSON; null stands for their absence. */
  datatype ChatRequest = ChatRequest(
    model: string, messages: seq<Message>, tools: seq<Tool>, toolChoice: Json, stream: bool,
    temperature: Option<Number>, maxTokens: Option<int>, responseFormat: Json)
}
