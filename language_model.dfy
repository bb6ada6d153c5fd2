/**
 * The host's vendor-neutral request and completion types (the
 * `language_model` crate), reduced to the fields the Copilot Chat adapter
 * reads or produces.
 */
module LanguageModel {
  import opened Wrappers
  import Json

  datatype Role = User | Assistant | System

  /** An image attached to a message; `source` stands for its base64 data URL. */
  datatype LanguageModelImage = LanguageModelImage(source: string)

  datatype LanguageModelToolResultContent = Text(text: string) | Image(image: LanguageModelImage)

  datatype LanguageModelToolResult = LanguageModelToolResult(
    toolUseId: string,
    toolName: string,
    isError: bool,
    content: LanguageModelToolResultContent)

  datatype LanguageModelToolUse = LanguageModelToolUse(
    id: string,
    name: string,
    rawInput: string,
    input: Json.Value,
    isInputComplete: bool)

  /** One content block of a message, a closed union. */
  datatype MessageContent =
    | Text(text: string)
    | Thinking(text: string, signature: Option<string>)
    | RedactedThinking(data: string)
    | Image(image: LanguageModelImage)
    | ToolUse(toolUse: LanguageModelToolUse)
    | ToolResult(toolResult: LanguageModelToolResult)

  datatype LanguageModelRequestMessage = LanguageModelRequestMessage(
    role: Role,
    content: seq<MessageContent>)

  datatype LanguageModelRequestTool = LanguageModelRequestTool(
    name: string,
    description: string,
    inputSchema: Json.Value)

  datatype LanguageModelToolChoice = Auto | Any | None

  datatype LanguageModelRequest = LanguageModelRequest(
    messages: seq<LanguageModelRequestMessage>,
    tools: seq<LanguageModelRequestTool>,
    toolChoice: Option<LanguageModelToolChoice>)

  datatype LanguageModelToolSchemaFormat = JsonSchema | JsonSchemaSubset

  datatype StopReason = EndTurn | ToolUse

  datatype LanguageModelCompletionEvent =
    | Text(text: string)
    | ToolUse(toolUse: LanguageModelToolUse)
    | Stop(reason: StopReason)

  datatype LanguageModelCompletionError =
    | BadInputJson(id: string, toolName: string, rawInput: string, jsonParseError: string)
    | Other(message: string)

  /** One item of the completion stream. */
  type CompletionResult = Result<LanguageModelCompletionEvent, LanguageModelCompletionError>
}
