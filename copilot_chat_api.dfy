/**
 * The Copilot Chat wire types (`copilot::copilot_chat`), as the provider
 * builds and reads them: the request it sends and the response events it
 * receives.
 */
module CopilotChat {
  import opened Wrappers
  import Json

  datatype ModelVendor = OpenAI | Google | Anthropic

  /** The capabilities of a Copilot model that the provider consults. */
  datatype Model = Model(
    id: string,
    vendor: ModelVendor,
    supportsVision: bool,
    supportsTools: bool,
    usesStreaming: bool)

  datatype ImageUrl = ImageUrl(url: string)

  datatype ChatMessagePart = Text(text: string) | Image(imageUrl: ImageUrl)

  datatype ChatMessageContent = Plain(text: string) | Multipart(parts: seq<ChatMessagePart>)

  /** `ChatMessageContent::empty()`: content with no parts. */
  const EmptyContent: ChatMessageContent := Multipart([])

  datatype FunctionContent = FunctionContent(name: string, arguments: string)

  /** A tool call of an assistant message (`ToolCallContent::Function`, its only kind). */
  datatype ToolCall = ToolCall(id: string, functionCall: FunctionContent)

  datatype ChatMessage =
    | Assistant(content: ChatMessageContent, toolCalls: seq<ToolCall>)
    | User(content: ChatMessageContent)
    | System(text: string)
    | Tool(toolCallId: string, content: ChatMessageContent)

  datatype Function = Function(name: string, description: string, parameters: Json.Value)

  /** A tool definition (`Tool::Function`, its only kind). */
  datatype Tool = Tool(definition: Function)

  datatype ToolChoice = Auto | Any | None

  datatype Request = Request(
    intent: bool,
    n: nat,
    stream: bool,
    temperature: real,
    model: string,
    messages: seq<ChatMessage>,
    tools: seq<Tool>,
    toolChoice: Option<ToolChoice>)

  datatype FunctionChunk = FunctionChunk(name: Option<string>, arguments: Option<string>)

  /** A fragment of a tool call, keyed by the index the vendor assigns to the call. */
  datatype ToolCallChunk = ToolCallChunk(index: nat, id: Option<string>, functionDelta: Option<FunctionChunk>)

  datatype ResponseDelta = ResponseDelta(content: Option<string>, toolCalls: seq<ToolCallChunk>)

  datatype ResponseChoice = ResponseChoice(
    finishReason: Option<string>,
    delta: Option<ResponseDelta>,
    message: Option<ResponseDelta>)

  datatype ResponseEvent = ResponseEvent(choices: seq<ResponseChoice>)
}
