/**
 * The request, message and tool shapes that the chat path reads and writes (the OpenAI-style
 * DTO classes of the server), as plain values. A C# reference that may be null is an `Option`.
 */
module Models {
  import opened Wrappers

  /** One parameter of a tool's schema. */
  datatype ParameterInfo = ParameterInfo(
    kind: string,
    description: Option<string>,
    enumValues: Option<seq<string>>,
    required: Option<bool>)

  /** A tool's parameter schema: named properties and the names listed as required. */
  datatype Parameters = Parameters(
    kind: string,
    properties: Option<map<string, ParameterInfo>>,
    required: Option<seq<string>>)

  /** A tool declaration: its name, description and parameter schema. */
  datatype FunctionInfo = FunctionInfo(
    name: string,
    description: Option<string>,
    parameters: Option<Parameters>)

  /** An entry of a request's `tools` list or of the registry listing. */
  datatype ToolInfo = ToolInfo(kind: string, fn: FunctionInfo)

  /** The name and raw argument text of one tool invocation. */
  datatype ToolMessageFunction = ToolMessageFunction(name: string, arguments: Option<string>)

  /** A tool invocation with its call id; `kind` defaults to "function". */
  datatype ToolMessage = ToolMessage(id: string, kind: string, fn: ToolMessageFunction)

  /** The role of a chat message; any role outside the four is kept as `Other`. */
  datatype Role = User | System | Assistant | Tool | Other(name: string)

  /** A chat message. A null `tool_calls` array behaves as an empty one everywhere it is read. */
  datatype Message = Message(
    role: Role,
    content: Option<string>,
    toolCalls: seq<ToolMessage>,
    toolCallId: Option<string>)

  /** The fields of a chat completion request that the chat path reads. */
  datatype ChatRequest = ChatRequest(
    model: string,
    messages: seq<Message>,
    toolChoice: Option<string>,   // `tool_choice.ToString()`, or None when `tool_choice` is null
    tools: Option<seq<ToolInfo>>,
    stop: Option<seq<string>>,
    maxTokens: Option<int>)

  /** The outcome of executing one tool call; `result` and `error` are rendered as text. */
  datatype ToolResponse = ToolResponse(id: string, kind: string, result: Option<string>, error: Option<string>)

  /** A plain (non-tool) message with the given role and content. */
  function PlainMessage(role: Role, content: Option<string>): Message {
    Message(role, content, [], None)
  }
}
