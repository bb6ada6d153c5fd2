# Copilot Chat provider: request adapter and stream normalizer

This project models, in Dafny, the protocol core of the GitHub Copilot Chat
language-model provider
(`crates/language_models/src/provider/copilot_chat.rs`). It is made of two
sequential pieces of logic and the small matches around them.

- **Request adapter** (`into_copilot_chat`). It turns the host editor's
  chat request into the Copilot wire request:
  - consecutive messages of the same role are merged;
  - each User message becomes one `Tool` message per tool result, then at
    most one `User` message, whose adjacent texts are merged and whose
    images depend on vision support;
  - each Assistant message becomes one `Assistant` message with its tool
    calls and its concatenated text, and a sticky `tool_called` flag
    records that a tool call was seen;
  - each System message becomes one `System` message;
  - the tool definitions are translated, and a synthetic `noop` tool is
    added when the history calls a tool but no tools are offered;
  - the fixed fields are set.

  The last-message guard that `stream_completion` runs first is part of
  the model.
- **Stream normalizer** (`map_to_language_model_completion_events`). It is
  a per-event state machine over the accumulator `tool_calls_by_index`, a
  map from the vendor's call index to a partly assembled call
  (`RawToolCall`):
  - text is passed on at once;
  - tool-call fragments are folded into the accumulator;
  - the finish reason `tool_calls` drains the accumulator into `ToolUse`
    or `BadInputJson` events, followed by `Stop(ToolUse)`.

Modules (each in the file named in brackets):

- `Wrappers` (`wrappers.dfy`): `Option` and `Result`.
- `Json` (`json.dfy`): a JSON value as a datatype. No JSON syntax is modelled.
- `LanguageModel` (`language_model.dfy`): the host types (request, message, content block, tool
  use and result, completion event and error).
- `CopilotChat` (`copilot_chat_api.dfy`): the wire types of the Copilot API (model descriptor, chat
  message, part, tool, request, response event, tool-call fragment). These
  are rebuilt from how `copilot_chat.rs` uses them. The crate that defines
  them is not part of this model.
- `CopilotRequest` (`copilot_request.dfy`): the adapter, the guard, and `supports_tool_choice` and
  `tool_input_format`.
- `CopilotStream` (`copilot_stream.dfy`): the normalizer.
  - The class `CompletionEventMapper` holds the accumulator as a
    `map<nat, RawToolCall>` field.
  - Its methods update the map with loops: fold the fragments, drain the
    map, handle one event.
  - `MapToCompletionEvents` runs the normalizer over a finite sequence of
    events.

The adapter's method loops are proved against functions over sequences,
for example:

- `Coalesced`, the merged message list;
- `UserParts`, the parts of one User message;
- `TranslateMessages`, the translated message list.

The lemmas then state what the source promises about those functions.

A `HashMap` drains in an unspecified order, so draining is modelled by
nondeterministic choice (`:|`). The method returns the order it used as a
ghost value. The step specification accepts any order in which every key
appears exactly once. The lemmas prove that the outcome does not depend
on that order, except for the order of the drained events themselves.

Foreign calls enter as function-typed parameters, which the model treats
as uninterpreted. Two of them return a `Result` and may fail:

- `toJson` is `serde_json::to_string`;
- `parse` is `serde_json::Value::from_str`.

The other two always return a value:

- `stringContents` is `LanguageModelRequestMessage::string_contents`;
- `contentsEmpty` is `LanguageModelRequestMessage::contents_empty`.

An image is carried as its base64 URL string (`to_base64_url`).

Two behaviours of the code are worth stating outright:

- **A transport error does not end the output.** The `unfold` closure
  returns `Some((vec![Err(..)], state))` for a failed vendor event
  (`:435`), so the normalizer yields one error and goes on with the next
  event. Only the end of the vendor stream ends the output.
  `MapToCompletionEvents` models this.
- **Adjacent texts become one part.** Two consecutive User messages "a"
  and "b" give the single part "ab", because adjacent text parts are
  merged with `push_str` (`:501-504`). `CopilotRequest.CoalescingExample`
  proves this.

## Model

| member | source | states |
|---|---|---|
| CopilotRequest.MergeConsecutiveRoles | crates/language_models/src/provider/copilot_chat.rs:449-460 | The merge loop returns the coalesced list. No two neighbours share a role, and the role-tagged content blocks, read in order, are exactly the input's. |
| CopilotRequest.CoalescedShape | crates/language_models/src/provider/copilot_chat.rs:449-460 | Merging never lengthens the list. It is empty exactly when the input is, and the last message keeps the input's last role. |
| CopilotRequest.CoalescedAlternates | crates/language_models/src/provider/copilot_chat.rs:449-460 | After merging, adjacent messages always differ in role. |
| CopilotRequest.CoalescedKeepsBlocks | crates/language_models/src/provider/copilot_chat.rs:449-460 | Merging drops, adds and reorders no content block, and each block keeps its role. |
| CopilotRequest.CoalescingExample | crates/language_models/src/provider/copilot_chat.rs:449-526 | Two User messages "a" and "b" merge into one message, which becomes one User message with the single text part "ab". |
| CopilotRequest.ToolResultsOfCount | crates/language_models/src/provider/copilot_chat.rs:467-468 | The tool results collected from a message occur exactly as often as the message's ToolResult blocks. |
| CopilotRequest.ToolResultMessage | crates/language_models/src/provider/copilot_chat.rs:468-491 | A tool result becomes a Tool message whose call id is the result's tool-use id. Text content is passed on as plain text. An image is one image part if the model has vision, and the fixed placeholder text if not. |
| CopilotRequest.ToolResultMessages | crates/language_models/src/provider/copilot_chat.rs:467-492 | The loop emits one Tool message per ToolResult block, in order, each the translation of that block. |
| CopilotRequest.UserContentParts | crates/language_models/src/provider/copilot_chat.rs:495-520 | The parts loop leaves no empty text and no two adjacent text parts. What the parts show equals the text of the Text and Thinking blocks plus the images the model can see, in order. Without vision every part is text. The result is empty exactly when nothing is shown. |
| CopilotRequest.UserPartsSpec | crates/language_models/src/provider/copilot_chat.rs:495-520 | The parts specification is well formed, and it shows exactly the message's text and permitted images, in order. |
| CopilotRequest.PartsDeterminedByAtoms | crates/language_models/src/provider/copilot_chat.rs:495-520 | Two well-formed part lists that show the same text and images are equal, so the merging of adjacent texts has one possible outcome. |
| CopilotRequest.NoPicturesWithoutVision | crates/language_models/src/provider/copilot_chat.rs:511-517 | Without vision, nothing a message shows is an image. |
| CopilotRequest.PicturesComeFromImageParts | crates/language_models/src/provider/copilot_chat.rs:511-517 | Every picture shown by a part list comes from an Image part with that URL. |
| CopilotRequest.ImagePartsAreShown | crates/language_models/src/provider/copilot_chat.rs:511-517 | Every Image part of a part list is shown as a picture. |
| CopilotRequest.UserMessagesSpec | crates/language_models/src/provider/copilot_chat.rs:466-526 | A User message becomes its Tool messages first, one per tool result and in order. Then comes exactly one User message when some text or permitted image remains, and none otherwise. That User message's parts are well formed and show exactly the message's content. |
| CopilotRequest.ToolUsesOfCount | crates/language_models/src/provider/copilot_chat.rs:529-531 | The tool uses collected from a message occur exactly as often as its ToolUse blocks. |
| CopilotRequest.SerializeToolCallsSpec | crates/language_models/src/provider/copilot_chat.rs:529-543 | Translating the tool uses succeeds iff every input serialises. On success, each call keeps its tool use's id and name, with the serialised input as arguments, in order. On failure, the error is that of the first input that fails. |
| CopilotRequest.SerializeFirstError | crates/language_models/src/provider/copilot_chat.rs:538 | When the tool uses are split, an error in the first part is the overall error. |
| CopilotRequest.AssistantToolCalls | crates/language_models/src/provider/copilot_chat.rs:529-543 | The tool-call loop returns the tool-use translation of the message. On success, the flag is set iff it was already set or the message holds a ToolUse block. |
| CopilotRequest.AssistantTextContent | crates/language_models/src/provider/copilot_chat.rs:545-560 | The text loop returns the concatenation of the texts of the Text and Thinking blocks, in order. |
| CopilotRequest.AssistantContent | crates/language_models/src/provider/copilot_chat.rs:562-568 | The content is the empty content exactly when the text is empty. Otherwise it is that text as plain content. |
| CopilotRequest.TranslateOneMessage | crates/language_models/src/provider/copilot_chat.rs:464-575 | One pass of the message loop returns the translation of the message. On success, `tool_called` becomes set iff it was set or the message is an Assistant message holding a ToolUse block. |
| CopilotRequest.TranslateErrSticky | crates/language_models/src/provider/copilot_chat.rs:538 | Once a prefix of the messages fails to translate, the whole list fails with the same error. |
| CopilotRequest.TranslateMessagesFailure | crates/language_models/src/provider/copilot_chat.rs:464-575 | Translating the coalesced messages fails iff the tool input of some Assistant-role block does not serialise, and the error comes from such a tool use. |
| CopilotRequest.TranslateTools | crates/language_models/src/provider/copilot_chat.rs:577-587 | The wire tools map one to one and in order onto the request's tools, with the same name, description and schema. |
| CopilotRequest.MapToolChoice | crates/language_models/src/provider/copilot_chat.rs:613-617 | The tool choice is absent exactly when it was not set. Otherwise Auto, Any and None map one to one. |
| CopilotRequest.IntoCopilotChat | crates/language_models/src/provider/copilot_chat.rs:445-619 | The adapter fails iff some Assistant-role tool input does not serialise, with that error. Otherwise the messages are the translation of the coalesced messages. The tools are the translated tools, followed by exactly one `noop` tool iff the history calls a tool and the request offers no tools. Also `tool_choice` is mapped, `intent` is true, `n` is 1, `stream` is the model's streaming flag, and the temperature and model id are set. |
| CopilotRequest.AdapterDeterministic | crates/language_models/src/provider/copilot_chat.rs:445-619 | Two results that meet the adapter's contract for the same request are equal. |
| CopilotRequest.CheckLastMessage | crates/language_models/src/provider/copilot_chat.rs:270-284 | The guard passes iff there are no messages, or the last message has contents and is User-authored. Otherwise it gives the empty-prompt message for empty contents, and the user-role message for another role. |
| CopilotRequest.PrepareCompletion | crates/language_models/src/provider/copilot_chat.rs:270-289 | A request the guard rejects fails with the guard's message and no wire request is built. Otherwise the result meets the adapter's contract. When there are messages, the last coalesced message is then User-authored. |
| CopilotRequest.SupportsToolChoice | crates/language_models/src/provider/copilot_chat.rs:229-235 | Every tool choice is supported iff the model supports tools. |
| CopilotRequest.ToolInputFormat | crates/language_models/src/provider/copilot_chat.rs:220-227 | The schema format is the JSON Schema subset iff the vendor is Google, and full JSON Schema otherwise. |
| CopilotStream.CompletionEventMapper.constructor | crates/language_models/src/provider/copilot_chat.rs:325-329 | A new normalizer starts with an empty accumulator. |
| CopilotStream.CompletionEventMapper.AddToolCallChunks | crates/language_models/src/provider/copilot_chat.rs:359-378 | The fragment loop leaves the accumulator equal to the old one with every fragment folded in, in order. |
| CopilotStream.AccumulateSpec | crates/language_models/src/provider/copilot_chat.rs:359-378 | Folding fragments in adds exactly the indices they mention. Each entry then holds the id and the name of the last fragment that carries one, or else the stored value. Its arguments are the stored ones followed by all argument fragments for that index, in arrival order. |
| CopilotStream.AccumulateAppend | crates/language_models/src/provider/copilot_chat.rs:359-378 | Fragments split over consecutive deltas accumulate as if they had arrived in one delta. |
| CopilotStream.ToolCallEvent | crates/language_models/src/provider/copilot_chat.rs:388-416 | A drained call gives a complete ToolUse with its id, name and raw input (the buffer). An empty buffer gives the input `{}`. A buffer that parses gives the parsed value. The result is an error iff the buffer is non-empty and does not parse, and the error is BadInputJson with the call's id, name, raw text and parse error. |
| CopilotStream.CompletionEventMapper.DrainToolCalls | crates/language_models/src/provider/copilot_chat.rs:386-419 | Draining empties the accumulator. It yields one event per entry, in an order that lists every key exactly once. |
| CopilotStream.KeyOrderLength | crates/language_models/src/provider/copilot_chat.rs:386-419 | A drain order has exactly as many positions as the accumulator has entries. |
| CopilotStream.DrainOrderIrrelevant | crates/language_models/src/provider/copilot_chat.rs:386-419 | Any two drain orders give the same number of events, and the same events as a multiset. |
| CopilotStream.SelectDelta | crates/language_models/src/provider/copilot_chat.rs:331-352 | A transport error gives that error. An event without a choice gives the no-choices error. It gives the no-delta error when the first choice lacks the delta (streaming) or the message (otherwise). Else it gives that delta and the choice's finish reason. |
| CopilotStream.CompletionEventMapper.Next | crates/language_models/src/provider/copilot_chat.rs:331-435 | One vendor event meets the step specification. A bad event gives its one error and leaves the accumulator unchanged. Otherwise: the text comes first; the fragments are folded in; `tool_calls` drains and stops for tool use; `stop` or any other reason stops the turn without touching the accumulator; no reason adds nothing. |
| CopilotStream.StepShape | crates/language_models/src/provider/copilot_chat.rs:331-433 | A bad event yields exactly one error and keeps the accumulator. A delta's text is the first event, and a Stop can only be the last event of a step. |
| CopilotStream.ToolCallsStep | crates/language_models/src/provider/copilot_chat.rs:386-423 | After `tool_calls` the accumulator is empty. One event per accumulated entry, each a ToolUse or an error, lies between the text and the final `Stop(ToolUse)`. |
| CopilotStream.StepDeterminedUpToDrainOrder | crates/language_models/src/provider/copilot_chat.rs:380-431 | Two outcomes of the same event from the same accumulator differ at most in the order of the drained events: same accumulator, same length, same events as a multiset. |
| CopilotStream.ReassemblyExample | crates/language_models/src/provider/copilot_chat.rs:359-423 | A call buffered at index 0 whose last argument fragment arrives with `tool_calls` yields that one completed call, then `Stop(ToolUse)`, and leaves the accumulator empty. |
| CopilotStream.FooFragmentsAssemble | crates/language_models/src/provider/copilot_chat.rs:359-378 | From an empty accumulator, a name fragment `foo` and the argument pieces `{"x":` and `1}` at index 0 assemble one call with an empty id, the name `foo` and the arguments `{"x":1}`. |
| CopilotStream.FreshReassemblyExample | crates/language_models/src/provider/copilot_chat.rs:354-423 | From an empty accumulator, an event carrying those three fragments and finishing with `tool_calls` yields exactly the completed call `foo` with arguments `{"x":1}`, then `Stop(ToolUse)`, and leaves the accumulator empty. |
| CopilotStream.MapToCompletionEvents | crates/language_models/src/provider/copilot_chat.rs:325-442 | Starting from an empty accumulator, every event is handled in order, error events included, and each step meets the step specification. The output is the concatenation of what the steps yield. |

## Left out

- Provider registration, the model list, authentication state and `reset_credentials` (`:46-188`). These are application handles and UI strings.
- `count_tokens` (`:245-258`). It calls foreign tokenizers.
- `telemetry_id`, `max_token_count` and the other one-line getters of the model handle. The model's capability flags (`supports_tools`, `supports_vision`, `uses_streaming`, `vendor`, `id`) are fields of `CopilotChat.Model`.
- The `RateLimiter`, `cx.spawn`, and the asynchronous `unfold`/`flat_map` machinery (`:292-305`, `:325-442`). These are concurrency and executor plumbing. The normalizer runs over a finite sequence of events instead. Cancellation is not modelled.
- `ConfigurationView` and settings updates (`:621-879`). These are UI and I/O.
- JSON syntax. `serde_json::to_string` and `serde_json::Value::from_str` are the parameters `toJson` and `parse`, and either may fail.
- `to_base64_url`: an image is carried as its URL string.
- `string_contents` and `contents_empty`: these are the parameters `stringContents` and `contentsEmpty`.
- The `debug_panic!` for a tool-result image sent to a model without vision (`:479-482`). Only the placeholder text is modelled.
- The `log::error!` for an unexpected finish reason (`:425`). Only the `Stop(EndTurn)` it falls back to is modelled.
- `temperature: 0.1` is the rational constant `CopilotRequest.Temperature`. Floating point is not modelled.
- The `From` conversions of the wire content type. The copilot crate is not part of this model, so they are assumed:
  - text converts to plain content;
  - a part list converts to multipart content;
  - `ChatMessageContent::empty()` is the empty multipart content.
- Error values are strings. The `anyhow` errors of the adapter and of the normalizer's `Other` events carry only their message. A transport error's message is passed on unchanged.
- CopilotStream.CompletionEventMapper.DrainToolCalls: drains in any order that visits every key once. It does not fix the order a real `HashMap` uses, which is unspecified.
- CopilotStream.CompletionEventMapper.Next: the drained events are specified for an arbitrary key order, and the lemmas relate outcomes only up to that order.
