# Chat view-model of Agent-APP-Starter's `App` component

This project models the decisions made by the single chat component of the
Agent-APP-Starter desktop app (`src/renderer/src/App.tsx`). The JSX is left
out. What remains is plain data and decisions:

- **Render plan** (`render_plan.dfy`, module `RenderPlan`). It is a pure
  function of the snapshot `(messages, status)` that the chat library hands
  to the component. For each message it decides:
  - whether the message gets a source disclosure, and which links it lists;
  - which block each part becomes: text, reasoning, tool, or nothing;
  - whether a reasoning block is marked streaming;
  - whether a text block carries the Retry and Copy actions;
  - whether a tool block shows its output.

  For the whole conversation it decides whether the loader is shown.
- **Snapshot data** (`chat_types.dfy`, module `ChatTypes`). It holds
  messages, parts, roles and the status. A part is a record keyed by its
  `type` string. The field is called `tag` because `type` is a Dafny keyword.
  Dispatch is therefore an exact match on `"text"` and `"reasoning"`, plus a
  wildcard on the `"tool-"` prefix.
- **Form state** (`prompt_form.dfy`, module `PromptForm`). The class `Form`
  holds the input text, the selected model and the web-search flag.
  `HandleSubmit` is the submit gate. It returns the single `sendMessage`
  request it makes, or `None` when it rejects the submission.
- **Tool body** (`secret_calculation.dfy`, module `SecretCalculation`). It
  models `performSecretCalculation.execute`, which computes `(a + b) % 10`
  with JavaScript's truncating `%`.

External calls are inputs or outputs of the model:
- The chat library's `messages` and `status` are parameters.
- The `sendMessage` call is the request that `HandleSubmit` returns.
- `regenerate()` and the clipboard write appear as the `Retry` and
  `Copy(text)` actions of a text block.

## Retry/Copy placement at line 169

Retry calls `regenerate()`, which re-requests the last assistant turn. The
evident intent is therefore to put Retry and Copy on the text of the last
message, when that message is the assistant's. The model states that rule as
`ActionsOnLastMessage`. Line 169 of `App.tsx` instead compares the PART
index `i` with `messages.length - 1`, the index of the last MESSAGE. The
render plan follows the code as written (`ShowActions`, `RenderPart`,
`ActionsAsWritten`). Two lemmas prove that the two rules differ:
- `ExampleConversation`: the conversation holds a user message and an
  assistant reply whose `"hello"` text sits at part index 2. That part meets
  `ActionsOnLastMessage`, but not `ShowActions`, so it gets no actions.
- `ActionsOnEarlierMessage`: an assistant message that is not the last one
  meets `ShowActions` but not `ActionsOnLastMessage`, so it gets actions,
  because its text part sits at index `messages.length - 1`.

## Model

| member | source | states |
|---|---|---|
| `RenderPlan.Classify` | src/renderer/src/App.tsx:161-223 | the part type selects a text block exactly for `"text"` and a reasoning block exactly for `"reasoning"`; it selects a tool block exactly when the type starts with `"tool-"`; it selects nothing for every other type |
| `RenderPlan.ClassifyAnyToolName` | src/renderer/src/App.tsx:199-200 | `"tool-"` followed by any tool name selects a tool block |
| `RenderPlan.SourceUrlRendersNoBlock` | src/renderer/src/App.tsx:199-222 | a `"source-url"` part falls through the switch and renders no block of its own |
| `RenderPlan.RenderPart` | src/renderer/src/App.tsx:161-223 | a part renders nothing iff its type is unrecognised. A text block carries the part's text and the message role. Its actions are present iff the message is from the assistant and the part index equals `messages.length - 1`, and then they are Retry and Copy of that text. A reasoning block carries the text and streams iff status is streaming, the part is the last of its message, and the message id equals the last message's id. A tool block carries type, state and input, and shows output with errorText iff the state is `output-available` |
| `RenderPlan.SourceUrlParts` | src/renderer/src/App.tsx:147-153 | the filter returns only `source-url` parts of the message, and no more than it had |
| `RenderPlan.SourceUrlPartsAppend` | src/renderer/src/App.tsx:152-158 | the filter distributes over concatenation, so the sources keep their original order |
| `RenderPlan.SourceUrlPartsMultiplicity` | src/renderer/src/App.tsx:152-158 | every `source-url` part is listed as many times as it occurs (no deduplication), and nothing else is listed |
| `RenderPlan.SourceUrlPartsNonEmpty` | src/renderer/src/App.tsx:146-147 | the filter is non-empty iff some part has type `source-url` |
| `RenderPlan.SourceLinks` | src/renderer/src/App.tsx:152-158 | there is one link per selected part, in order, with the url as both href and title |
| `RenderPlan.MessageSources` | src/renderer/src/App.tsx:146-159 | the disclosure exists iff the message is from the assistant and has a `source-url` part. Its count equals the number of such parts and of listed links, and each link's href and title are that part's url |
| `RenderPlan.RenderMessage` | src/renderer/src/App.tsx:144-225 | a message view has the message's id and source disclosure, and one block per part in part order |
| `RenderPlan.RenderConversation` | src/renderer/src/App.tsx:144-227 | there is one view per message in message order, and the loader is present iff status is `submitted` |
| `RenderPlan.StreamingBlockIsLastPart` | src/renderer/src/App.tsx:189-193 | a streaming block only occurs while status is streaming; it is the last part of its message, and its message has the last message's id |
| `RenderPlan.StreamingBlockIsTail` | src/renderer/src/App.tsx:189-193 | with unique ids, a streaming block belongs to the last message |
| `RenderPlan.AtMostOneStreamingBlock` | src/renderer/src/App.tsx:189-193 | with unique ids, at most one block of the whole view is streaming |
| `RenderPlan.StreamingTailIsMarked` | src/renderer/src/App.tsx:189-193 | while streaming, a reasoning part at the tail of the last message is marked streaming |
| `RenderPlan.DuplicateIdsGiveTwoStreamingBlocks` | src/renderer/src/App.tsx:192 | the flag compares ids rather than positions, so two messages that share the last id both stream |
| `RenderPlan.ActionsAsWritten` | src/renderer/src/App.tsx:169-181 | a block has actions iff the part is text, the message is from the assistant and the part index is `messages.length - 1`; the actions are then Retry and Copy of that part's text |
| `RenderPlan.ExampleConversation` | src/renderer/src/App.tsx:146-181 | in the two-message example, the duplicate sources are both listed with count 2, and the user message has no sources. The source parts render no block. The `"hello"` text part meets the last-message rule but gets no actions as written. There is no loader |
| `RenderPlan.ActionsOnEarlierMessage` | src/renderer/src/App.tsx:169 | an assistant message that is not the last one can get Retry and Copy, although it fails the last-message rule |
| `SecretCalculation.JsRem` | src/renderer/src/App.tsx:111 | the dividend equals divisor times the truncated quotient plus the remainder; the remainder is smaller than the divisor in size, and it is zero or has the dividend's sign |
| `SecretCalculation.JsRemUnique` | src/renderer/src/App.tsx:111 | those three facts determine the remainder and quotient uniquely |
| `SecretCalculation.JsRemNonNegative` | src/renderer/src/App.tsx:111 | on a non-negative dividend the remainder equals Dafny's Euclidean one |
| `SecretCalculation.JsRemNegate` | src/renderer/src/App.tsx:111 | negating the dividend negates the remainder |
| `SecretCalculation.Execute` | src/renderer/src/App.tsx:109-112 | the result lies strictly between -10 and 10, is zero or has the sign of `a + b`, and differs from `a + b` by a multiple of 10; it is `(a + b) mod 10` when the sum is non-negative |
| `SecretCalculation.ExecuteNegativeSum` | src/renderer/src/App.tsx:111 | `-3 + -4` gives `-7`, not Euclidean `3` |
| `PromptForm.SubmitRequest` | src/renderer/src/App.tsx:118-135 | a submission is rejected iff it has neither non-empty text nor at least one file. Otherwise the text is the typed text if there is any, else `'Sent with attachments'`, and it is never empty. The files are passed through unchanged, and the body carries the given model and webSearch flag |
| `PromptForm.EmptySubmissionIsRejected` | src/renderer/src/App.tsx:119-123 | empty or absent text with no files sends nothing |
| `PromptForm.AttachmentOnlySubmission` | src/renderer/src/App.tsx:124-128 | empty text and one file send the placeholder text with that file |
| `PromptForm.Form.constructor` | src/renderer/src/App.tsx:75-92 | the initial state is empty input, model `openai/gpt-5-nano` (the first listed model) and web search off |
| `PromptForm.Form.SetInput` | src/renderer/src/App.tsx:236 | the textarea replaces the input, and nothing else changes |
| `PromptForm.Form.ToggleWebSearch` | src/renderer/src/App.tsx:246-248 | the Search button flips webSearch, and nothing else changes |
| `PromptForm.Form.SelectModel` | src/renderer/src/App.tsx:253-257 | the selector sets the model to exactly the chosen value, and nothing else changes |
| `PromptForm.Form.HandleSubmit` | src/renderer/src/App.tsx:118-137 | the returned request is the gate's verdict on the current model and flag. The input is cleared iff a request was sent, and is otherwise unchanged. Model and flag are unchanged |

## Left out

- The JSX tree is not modelled: the component tree, `ThemeProvider`, the
  scroll button, React keys (`${message.id}-${i}`), the
  Search button's styling (line 247), the `disabled` expression (line 271)
  and the attachment preview widgets (lines 55-74). They compose UI library
  components and decide nothing about the conversation.
- `useChat`, `createGateway`, `DirectChatTransport`, `ToolLoopAgent` and the
  API key (lines 93-117) are a network and agent runtime in a foreign
  library. `messages` and `status` are parameters of the render plan. The
  `sendMessage` call is the request `HandleSubmit` returns. `regenerate()`
  is the `Retry` action.
- zod's `inputSchema` (lines 105-108) is foreign validation. `Execute` takes
  two integers.
- `console.log` (line 110) is output only.
- `JSON.stringify` of the tool output (line 212) is left out. The output is
  carried as a JSON value.
- `navigator.clipboard.writeText` (line 175) is an asynchronous browser API.
  The model records only that Copy targets the part's text.
- SecretCalculation.Execute: inputs are integers rather than JavaScript
  doubles. Fractions, precision loss above 2^53 and the negative zero that
  JavaScript gives for, say, `-10 % 10` are not modelled.
- SecretCalculation.JsRem: defined only for positive divisors, because the
  tool only ever divides by the constant 10.
- The part record carries only the fields the component reads: type, text,
  url, state, input, output and errorText. The library's other part fields
  are left out, such as tool call ids, source ids and provider metadata.
  Fields a tag does not use are ignored, where JavaScript would have them
  undefined.
- The selector's list of models (lines 263-267) is only the constant
  `Models`. `SelectModel` accepts any string, as `setModel` does.
