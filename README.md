# Lisa.AI chat path, modelled in Dafny

Lisa.AI is an OpenAI-style HTTP server in front of a local text generator. This project models
the part of it that turns a chat request into a reply. The model covers five pieces.

- **The history transform.** `BaseHistoryTransform.HistoryToText` compiles the message list
  into one prompt string. It tracks an open tool-call window, a "system already added" flag and
  carried system text, plus a dictionary of pending tool-call ids and their rendered results. The
  per-model transforms (ChatML base, Gemma, two LLama 3 copies, Zephyr) differ only in four
  tokens, so each is a `TemplateSet` value.
- **The tool protocol generator.** `ToolPromptGenerator` provides these operations:
  - the prefix test `IsToolActive`, which decides whether the model is calling a tool;
  - the call, result and return formatters;
  - extraction of calls from generated text, with argument normalisation;
  - assembly of the tool-description prompt;
  - the configuration accessors.
- **Request shaping.**
  - The stop list: request stops, then model anti-prompts, then the protocol's stop words; distinct, non-blank, at most four.
  - The token limit.
  - `GetChatHistory`: the system prompt is prepended when needed, then a transform is chosen and run.
- **The two chat services.**
  - The Blazor CPU server, non-streaming: reports tool calls back to the client. Streaming: holds back the first three fragments, then classifies them.
  - The Lisa.AI server, non-streaming: runs the calls found when every tool is registered, then generates once more; otherwise it redirects the calls to the client with instructions.
  - The Lisa.AI server, streaming: sends each fragment at once, and stops the generator at the first fragment that completes a tool call.
- **Small stateful stores.**
  - The tool registry, `ToolService`.
  - The key/value store, `MemDataStore`.
  - The least-loaded node selector, which keeps per-node use counters in that store.

Things outside Dafny's reach become parameters:

- the generator (`Engine`: the fragments it yields for a prompt and the prompt-token count);
- the regular-expression engine (`RegexEngine`: its match list);
- JSON serialisation (`JsonEncoder`);
- the JSON argument parser and the tool handlers (`ArgumentParser`, `Handler`);
- the GUIDs used for call ids (`CallIds`).

`string.Format` is modelled concretely for positional placeholders `{n}` and the escapes `{{` and
`}}`. .NET exceptions are the `Exception` values of a `Result`. Streamed replies are sequences of
`Frame`s: a chunk is its index, its delta and its finish reason, and `Done` stands for `[DONE]`.

Modules, one file each:

- `Wrappers`, `Text`, `Models`, `Templates`: the basic types and the string operations.
- `ToolPrompt`, `ToolPromptBuilder`: the tool protocol generator.
- `Compiler`, `CompilerFacts`, `TemplateFacts`: the history transform and what it guarantees.
- `RequestShaping`: the stop list, the token limit and `GetChatHistory`.
- `Chunks`: the pieces a reply is built from.
- `BufferedStream`, `BreakingStream`: the two streaming decoders.
- `Completion`, `ReportingCompletion`, `RunningCompletion`: the non-streamed answers of the two services.
- `ToolRegistry`, `MemStore`, `NodeSelector`: the stateful stores.

## Model

Source paths are relative to the repository root. Line ranges cite the code each member models.

| member | source | states |
|---|---|---|
| Text.TrimStart | Lisa.AI/FunctionCall/ToolPromptGenerator.cs:36 | the result is a suffix of the input; what was dropped is all white space; the result does not start with white space |
| Text.TrimEnd | Lisa.AI/FunctionCall/ToolPromptGenerator.cs:36 | the result is a prefix of the input; what was dropped is all white space; the result does not end with white space |
| Text.Trim | Lisa.AI/FunctionCall/ToolPromptGenerator.cs:36 | a non-empty result starts and ends with non-white space; the result is empty exactly when the input is blank |
| Text.Replace | Lisa.AI/FunctionCall/ToolPromptGenerator.cs:177 | a text in which the pattern does not occur is returned unchanged |
| Text.DigitRun | Lisa.AI/FunctionCall/ToolPromptGenerator.cs:182 | the length of the longest all-digit prefix: every character before it is a digit and the next one is not |
| Text.NatToString | Lisa.AI/FunctionCall/ToolPromptGenerator.cs:170 | `int.ToString()` of a natural gives a non-empty digit string whose decimal value is the number |
| Text.ConcatAppend | Lisa.AI/FunctionCall/ToolPromptGenerator.cs:36 | `string.Join("", a + b)` is the join of `a` followed by the join of `b` |
| Text.TrimStartOfAppend | Lisa.AI/FunctionCall/ToolPromptGenerator.cs:36 | trimming the front of `x + y` trims `x` alone when `x` is not blank, and trims `y` when it is |
| Text.TrimEndOfAppend | Lisa.AI/FunctionCall/ToolPromptGenerator.cs:36 | trimming the end of `x + y` trims `y` alone when `y` is not blank, and trims `x` when it is |
| Text.TrimmedPrefixStable | Lisa.AI/FunctionCall/ToolPromptGenerator.cs:34-37 | when the trimmed text starts with a prefix, so does the trimmed text with anything appended |
| Text.FormatBraceFree | Lisa.AI/FunctionCall/ToolPromptGenerator.cs:77 | formatting a template without braces returns it unchanged, whatever the arguments |
| Text.FormatLiteralThen | Lisa.AI/FunctionCall/ToolPromptGenerator.cs:77 | a brace-free literal at the front of a template is copied, and the rest is formatted as before |
| Text.FormatSlotThen | Lisa.AI/FunctionCall/ToolPromptGenerator.cs:77 | a literal, then `{k}`, then the rest formats as the literal, argument k and the formatted rest |
| Text.FormatItemThen | Lisa.AI/FunctionCall/ToolPromptGenerator.cs:77 | `{k}` followed by a template formats as argument k followed by the formatted template |
| Text.DigitRunAtLeast | Lisa.AI/FunctionCall/ToolPromptGenerator.cs:182 | a string whose first m characters are digits and whose next character is not has a digit run of exactly m |
| ToolPrompt.NormalizeArguments | Lisa.AI/FunctionCall/ToolPromptGenerator.cs:117-121 | the arguments are null exactly when group 2 did not match, or matched blank text, `null`, `{}` or `[]`; otherwise the captured text is kept verbatim |
| ToolPrompt.ExtractCallsPerMatch | Lisa.AI/FunctionCall/ToolPromptGenerator.cs:112-128 | one invocation per match, in match order; name from group 1, arguments normalised from group 2 |
| ToolPrompt.GetToolPromptConfig | Lisa.AI/FunctionCall/ToolPromptGenerator.cs:64-67 | succeeds exactly for an index in range, and then returns that configuration |
| ToolPrompt.GetToolStopWords | Lisa.AI/FunctionCall/ToolPromptGenerator.cs:44-47 | succeeds exactly for an index in range, and then returns that configuration's stop words |
| ToolPrompt.GetToolResultSplit | Lisa.AI/FunctionCall/ToolPromptGenerator.cs:54-57 | succeeds exactly for an index in range, and then returns that configuration's result split |
| ToolPrompt.GenerateToolCallReturn | Lisa.AI/FunctionCall/ToolPromptGenerator.cs:97-100 | for an index in range, the text is the exit marker, `": "`, then the rendered result (empty for null) |
| ToolPrompt.GenerateToolCalls | Lisa.AI/FunctionCall/ToolPromptGenerator.cs:108-129 | the extraction loop fails exactly for an index out of range; otherwise it returns one invocation per match of the protocol's pattern, in order |
| ToolPrompt.IsToolActiveStable | Lisa.AI/FunctionCall/ToolPromptGenerator.cs:34-37 | once the trimmed joined fragments start with the function-name marker, every longer fragment list does too |
| ToolPrompt.CallTemplateSlots | Lisa.AI/FunctionCall/ToolPromptGenerator.cs:75-78 | with a call template `pre{0}mid{1}post`, the call text is `pre`, the name, `mid`, the rendered arguments and `post` |
| ToolPrompt.ResultTemplateSlot | Lisa.AI/FunctionCall/ToolPromptGenerator.cs:86-89 | with a result template `pre{0}post`, the result text is `pre`, the rendered result and `post` |
| ToolPromptBuilder.MarkRequired | Lisa.AI/FunctionCall/ToolPromptGenerator.cs:222-232 | the loop over the required names returns the map `MarkedRequired` defines, in which each listed property is flagged required |
| ToolPromptBuilder.MarkedRequiredFacts | Lisa.AI/FunctionCall/ToolPromptGenerator.cs:222-232 | marking keeps the key set and each property's type, description and enum values. A listed property becomes required; any other keeps its flag. Marking twice equals marking once |
| ToolPromptBuilder.GetFunctionDescription | Lisa.AI/FunctionCall/ToolPromptGenerator.cs:196-235 | a blank template gives the serialised function; no parameters gives the template filled with an empty parameter text; otherwise the required names are marked first and the serialised properties fill slot 3; a filled template comes back trimmed |
| ToolPromptBuilder.CollectPerItem | Lisa.AI/FunctionCall/ToolPromptGenerator.cs:161 | building all descriptions succeeds exactly when each one does, and then keeps them in tool order |
| ToolPromptBuilder.CollectFirstFailure | Lisa.AI/FunctionCall/ToolPromptGenerator.cs:161 | the first tool whose description throws decides the exception, whatever comes after it |
| ToolPromptBuilder.GenerateToolPrompt | Lisa.AI/FunctionCall/ToolPromptGenerator.cs:138-186 | the result is `""` exactly when there are no tools or the tool choice is `none`. With no configurations it throws OperationCanceled; an index at or past the count throws IndexOutOfRange; a negative index throws ArgumentOutOfRange. A produced prompt starts with a blank line |
| ToolPromptBuilder.PromptFor | Lisa.AI/FunctionCall/ToolPromptGenerator.cs:154-185 | the part after the configuration checks; a successful prompt starts with `"\n\n"` and is never empty |
| ToolPromptBuilder.DescribeAll | Lisa.AI/FunctionCall/ToolPromptGenerator.cs:161-162 | the loop builds the descriptions `Descriptions` defines; on success there is one per tool |
| ToolPromptBuilder.BuildToolDesc | Lisa.AI/FunctionCall/ToolPromptGenerator.cs:162-174 | the description block is the joined descriptions, the two fixed paragraphs, one numbered usage line per tool, then the fallback line |
| ToolPromptBuilder.AppendUses | Lisa.AI/FunctionCall/ToolPromptGenerator.cs:167-172 | the counting loop appends line i as `"\n{i}. Use {summary}."` for i from 1, and leaves the counter at n + 1 |
| ToolPromptBuilder.NumberedUsesSnoc | Lisa.AI/FunctionCall/ToolPromptGenerator.cs:168-172 | the usage list for k summaries is the list for k - 1 followed by line k |
| ToolPromptBuilder.TrimIdempotent | Lisa.AI/FunctionCall/ToolPromptGenerator.cs:218-234 | trimming a trimmed description changes nothing |
| ToolPromptBuilder.NumberedUsesPrefix | Lisa.AI/FunctionCall/ToolPromptGenerator.cs:167-172 | the usage list built so far is a prefix of the whole list |
| ToolPromptBuilder.UsageLine | Lisa.AI/FunctionCall/ToolPromptGenerator.cs:170-250 | line i + 1 of the usage list, `"\n{i+1}. Use {summary}."`, sits in the whole list right after the first i lines |
| ToolPromptBuilder.ParallelPromptTail | Lisa.AI/FunctionCall/ToolPromptGenerator.cs:154-185 | with tool choice `parallel`, a successful prompt comes from a valid configuration and ends with a blank line and that configuration's parallel template for the language, filled with the function-name, arguments, result and exit markers and the comma-separated tool names |
| ToolPromptBuilder.SequentialPromptTail | Lisa.AI/FunctionCall/ToolPromptGenerator.cs:154-185 | with any other tool choice that asks for a prompt, the same ending with the configuration's sequential template |
| ToolPromptBuilder.ConfiguredTail | Lisa.AI/FunctionCall/ToolPromptGenerator.cs:177-185 | a configured prompt ends with a blank line and the call-format template, filled with the four markers and the comma-separated tool names. The parallel template is the one used exactly when the choice is `parallel` |
| ToolPromptBuilder.FiveSlots | Lisa.AI/FunctionCall/ToolPromptGenerator.cs:182 | a five-placeholder template with brace-free literals formats to the arguments interleaved with the literals |
| Compiler.SetResult | Lisa.AI.Blazor.Cpu/Transform/BaseTransform.cs:120 | assigning through the dictionary indexer keeps every id in its place and changes only the value stored under that id |
| Compiler.StepsErrPropagates | Lisa.AI.Blazor.Cpu/Transform/BaseTransform.cs:57-123 | once a prefix of the messages throws, the whole pass throws that exception |
| Compiler.OpenCallsErrPropagates | Lisa.AI.Blazor.Cpu/Transform/BaseTransform.cs:102-107 | once a prefix of an assistant's calls throws, opening them all throws that exception |
| Compiler.HistoryTransform.constructor | Lisa.AI.Blazor.Cpu/Transform/BaseTransform.cs:16-36 | a new transform has its four tokens and no pending calls |
| Compiler.HistoryTransform.HistoryToText | Lisa.AI.Blazor.Cpu/Transform/BaseTransform.cs:46-146 | the imperative loop over the messages, then the closing step, returns the compiled text or the exception. On success the pending-call dictionary is left as the compilation ends it |
| Compiler.HistoryTransform.OpenToolCalls | Lisa.AI.Blazor.Cpu/Transform/BaseTransform.cs:101-108 | the loop over the tool calls writes one formatted call line each and adds each id to the dictionary. A failing formatter, or an id already present, throws |
| CompilerFacts.OpenCallsShape | Lisa.AI.Blazor.Cpu/Transform/BaseTransform.cs:101-108 | opening calls appends one empty pending entry per call, in order. It only extends the text, and keeps the ids distinct |
| CompilerFacts.OpenCallsRejectsAt | Lisa.AI.Blazor.Cpu/Transform/BaseTransform.cs:106 | a call whose id is already pending when it is reached makes `Dictionary.Add` throw |
| CompilerFacts.OpenCallsRejectsRepeatedId | Lisa.AI.Blazor.Cpu/Transform/BaseTransform.cs:102-107 | two calls with the same id in one assistant message make the compilation throw |
| CompilerFacts.OpenCallsRejectsPendingId | Lisa.AI.Blazor.Cpu/Transform/BaseTransform.cs:106 | a call whose id is already pending makes the compilation throw |
| CompilerFacts.RepeatedCallIdThrows | Lisa.AI.Blazor.Cpu/Transform/BaseTransform.cs:99-107 | with the window closed, an assistant message repeating a call id throws |
| CompilerFacts.StepKeepsCoherent | Lisa.AI.Blazor.Cpu/Transform/BaseTransform.cs:57-123 | after every message, calls are pending exactly when the tool window is open, and no id is pending twice |
| CompilerFacts.StepsKeepCoherent | Lisa.AI.Blazor.Cpu/Transform/BaseTransform.cs:57-123 | the invariant holds after any number of messages |
| CompilerFacts.FreshCompilationCoherent | Lisa.AI.Blazor.Cpu/Transform/BaseTransform.cs:54-123 | from a fresh transform, the window is open exactly when calls are pending, and the pending ids are distinct |
| CompilerFacts.StepUserExtends | Lisa.AI.Blazor.Cpu/Transform/BaseTransform.cs:61-71 | a user message only appends to the prompt text |
| CompilerFacts.StepAssistantExtends | Lisa.AI.Blazor.Cpu/Transform/BaseTransform.cs:87-115 | an assistant message only appends to the prompt text |
| CompilerFacts.StepExtends | Lisa.AI.Blazor.Cpu/Transform/BaseTransform.cs:59-122 | any message only appends to the prompt text |
| CompilerFacts.StepsExtend | Lisa.AI.Blazor.Cpu/Transform/BaseTransform.cs:57-123 | the prompt text is append-only over the whole pass |
| CompilerFacts.SystemTakenPersists | Lisa.AI.Blazor.Cpu/Transform/BaseTransform.cs:74-75 | once a system turn is taken, the flag stays set |
| CompilerFacts.LaterSystemIgnored | Lisa.AI.Blazor.Cpu/Transform/BaseTransform.cs:74-75 | once a system message has been taken with the window closed, a later system message changes nothing, so at most one system section appears |
| CompilerFacts.StepsPrefixOk | Lisa.AI.Blazor.Cpu/Transform/BaseTransform.cs:57-123 | a pass that succeeds succeeds on every prefix of the messages |
| CompilerFacts.StepsSplit | Lisa.AI.Blazor.Cpu/Transform/BaseTransform.cs:57-123 | compiling a list is compiling a prefix, then the rest from the state the prefix reached |
| CompilerFacts.CompileEnding | Lisa.AI.Blazor.Cpu/Transform/BaseTransform.cs:125-145 | the returned text is the loop's text followed by exactly one of three endings. After a trailing tool message with results pending: the pending results, one per line in call order, then the exit marker line, and the dictionary is emptied. Otherwise, while a call is still open: `endToken + assistantToken` and a newline. Otherwise: the assistant token and a newline |
| CompilerFacts.FinishEnding | Lisa.AI.Blazor.Cpu/Transform/BaseTransform.cs:125-143 | the closing step from any state appends exactly the same three endings under the same three conditions |
| CompilerFacts.ToolRoundTrip | Lisa.AI.Blazor.Cpu/Transform/BaseTransform.cs:88-120 | an assistant call, the tool's answer, then the assistant's reply render as follows: the assistant token, the call line, the result split, the formatted result, and `exit: reply` with the end token. The window ends closed and empty |
| CompilerFacts.OpensCall | Lisa.AI.Blazor.Cpu/Transform/BaseTransform.cs:99-110 | an assistant message with one call writes the assistant-token line, the call line and the result split (no newline), pends the id and opens the window |
| CompilerFacts.RecordsResult | Lisa.AI.Blazor.Cpu/Transform/BaseTransform.cs:117-121 | a tool message for a pending id in an open window records its formatted result and writes nothing |
| CompilerFacts.ClosesExchange | Lisa.AI.Blazor.Cpu/Transform/BaseTransform.cs:88-98 | an assistant message in an open window flushes the results, writes `exit: content` with the end token, clears the dictionary and closes the window |
| TemplateFacts.TwoSteps | Lisa.AI.Blazor.Cpu/Transform/BaseTransform.cs:57-145 | a system then user history compiles as the system step, the user step and the closing step |
| TemplateFacts.SystemThenUser | Lisa.AI.Blazor.Cpu/Transform/BaseTransform.cs:69-142 | with a system token: a system section carrying the tool prompt, then the user turn, then the assistant token line |
| TemplateFacts.SystemMergedIntoUser | Lisa.AI.Blazor.Cpu/Transform/BaseTransform.cs:69-80 | with a blank system token, no system section: `content + " " + toolPrompt` opens the next user turn |
| TemplateFacts.ChatMLPrompt | Lisa.AI.Blazor.Cpu/Transform/BaseTransform.cs:16-31 | the exact ChatML prompt for a system and a user message |
| TemplateFacts.GemmaPrompt | Lisa.AI/Transform/GemmaTransform.cs:9-18 | Gemma has no system section: the system text and tool prompt open the `<start_of_turn>user` turn, and the prompt ends with the `<start_of_turn>model` line |
| TemplateFacts.LLamaPrompt | Lisa.AI.Blazor.Cpu/Transform/LLamaTransform.cs:15-24 | every LLama 3 header is followed by a blank line and every turn closes with `<|eot_id|>`. The Lisa.AI copy has the same four tokens |
| TemplateFacts.ZephyrPrompt | Lisa.AI/Transform/ZephyrTransform.cs:9-18 | the Zephyr prompt: `<|system|>` and `<|user|>` turns closed by `<|end|>`, ending with the `<|assistant|>` line |
| TemplateFacts.PlainAssistantTurn | Lisa.AI.Blazor.Cpu/Transform/BaseTransform.cs:111-114 | with no call open, an assistant message without tool calls appends the assistant token line, then its content and the end token on one line, and changes nothing else |
| TemplateFacts.GemmaAssistantTurn | Lisa.AI/Transform/GemmaTransform.cs:9-18 | under Gemma that turn is `<start_of_turn>model`, a newline, the content and `<end_of_turn>` |
| TemplateFacts.ZephyrAssistantTurn | Lisa.AI/Transform/ZephyrTransform.cs:9-18 | under Zephyr that turn is `<|assistant|>`, a newline, the content and `<|end|>` |
| TemplateFacts.SystemStepSilent | Lisa.AI.Blazor.Cpu/Transform/BaseTransform.cs:73-85 | with a blank system token a system message writes nothing and keeps the pending calls and the open-call flag; it only sets the held system text to `content + " " + toolPrompt`, or is skipped |
| TemplateFacts.SystemStepsSilent | Lisa.AI.Blazor.Cpu/Transform/BaseTransform.cs:73-85 | any run of system messages under a blank system token writes nothing |
| TemplateFacts.GemmaSystemSilent | Lisa.AI/Transform/GemmaTransform.cs:9-18 | Gemma's system token is blank, so system messages never produce a section of their own |
| TemplateFacts.LLamaOpenWindowEnding | Lisa.AI.Blazor.Cpu/Transform/LLamaTransform.cs:15-24 | under LLama 3, a history that ends while a call is still open closes with `<|eot_id|>`, the assistant header, a blank line and a newline |
| RequestShaping.DistinctFrom | Lisa.AI.Blazor.Cpu/Services/LLmModelService.cs:688 | `Distinct()` keeps exactly the strings that occur and were not excluded, each once, in the order of their first occurrence |
| RequestShaping.NonBlank | Lisa.AI.Blazor.Cpu/Services/LLmModelService.cs:688 | keeps exactly the non-blank strings |
| RequestShaping.FirstIndex | Lisa.AI.Blazor.Cpu/Services/LLmModelService.cs:688 | the position of a string's first occurrence: it holds the string and no earlier position does |
| RequestShaping.NonBlankAppend | Lisa.AI.Blazor.Cpu/Services/LLmModelService.cs:688 | the filter works element by element: filtering a concatenation concatenates the filtered parts |
| RequestShaping.NonBlankKeepsAll | Lisa.AI.Blazor.Cpu/Services/LLmModelService.cs:688 | a list without blanks passes the filter unchanged |
| RequestShaping.NonBlankKeepsOrder | Lisa.AI.Blazor.Cpu/Services/LLmModelService.cs:688 | the filter keeps first-occurrence order |
| RequestShaping.DistinctFromPrefix | Lisa.AI.Blazor.Cpu/Services/LLmModelService.cs:688 | distinct strings not yet seen at the front of the list stay at the front of the result, in their order |
| RequestShaping.RequestStopsCrowdOut | Lisa.AI.Blazor.Cpu/Services/LLmModelService.cs:672-689 | four distinct non-blank request stop strings make the stop list exactly those four, so the anti-prompts and the tool protocol's stop words are dropped |
| RequestShaping.MaxTokensParam | Lisa.AI.Blazor.Cpu/Services/LLmModelService.cs:693 | the limit is `max_tokens` when it is positive, and -1 otherwise |
| RequestShaping.GetInferenceParams | Lisa.AI.Blazor.Cpu/Services/LLmModelService.cs:670-705 | the method gathers the request stops, the anti-prompts and the tool stop words, then sets the stop list and the token limit (the Lisa.AI copy, Lisa.AI/Services/LLmModelService.cs:730-760, is the same) |
| RequestShaping.StopWordsFacts | Lisa.AI.Blazor.Cpu/Services/LLmModelService.cs:672-689 | at most four stop strings, none blank, none twice, each one gathered, in the order of their first occurrence; with at most four distinct non-blank candidates, all of them are kept; a non-blank gathered string is left out only when four others that occur before it fill the list |
| RequestShaping.NonBlankKeepsDistinct | Lisa.AI.Blazor.Cpu/Services/LLmModelService.cs:688 | dropping blanks keeps a duplicate-free list duplicate-free |
| RequestShaping.ChatHistoryToolMode | Lisa.AI.Blazor.Cpu/Services/LLmModelService.cs:446-482 | the tool protocol is on exactly when the tool prompt is not blank. Then the index is valid and the stop words are the protocol's; otherwise there are none |
| RequestShaping.PrependRule | Lisa.AI.Blazor.Cpu/Services/LLmModelService.cs:454-462 | a system message with the configured prompt is prepended exactly when tools are on or a system prompt is set, and the first message is not a system message; otherwise the messages are unchanged |
| RequestShaping.UnresolvedTransformIsEmpty | Lisa.AI.Blazor.Cpu/Services/LLmModelService.cs:464-476 | a configured transform name that resolves to nothing yields an empty prompt |
| RequestShaping.FinishExtends | Lisa.AI.Blazor.Cpu/Transform/BaseTransform.cs:125-143 | the closing step only appends to the prompt text |
| RequestShaping.SystemSectionLeads | Lisa.AI.Blazor.Cpu/Transform/BaseTransform.cs:73-85 | with a system token, a history that opens with a system message compiles to a prompt opening with that message's section and the tool prompt |
| RequestShaping.ToolPromptOpensPrompt | Lisa.AI.Blazor.Cpu/Services/LLmModelService.cs:448-479 | with tools on, no leading system message, and a transform that has a system token, the prompt opens with a system section holding the configured system prompt and the tool prompt |
| Chunks.ContentRun | Lisa.AI.Blazor.Cpu/Services/LLmModelService.cs:316-335 | one content chunk per fragment, the i-th numbered start + i and carrying fragment i |
| Chunks.CallMessages | Lisa.AI/Services/LLmModelService.cs:169-177 | one call per detected invocation, in order, each with id `call_<guid>` and the invocation's name and arguments |
| Chunks.ResultMessages | Lisa.AI/Services/LLmModelService.cs:186-194 | one assistant message `Tool Result for {id}: {result ?? error}` per response, in order |
| Chunks.Replay | Lisa.AI.Blazor.Cpu/Services/LLmModelService.cs:290-312 | the replay loop sends each held fragment as a content chunk, numbered on from the index, and advances the index by their number |
| Chunks.ContentRunAppend | Lisa.AI.Blazor.Cpu/Services/LLmModelService.cs:316-335 | numbering two runs one after the other is numbering their concatenation |
| Chunks.ContentRunSnoc | Lisa.AI.Blazor.Cpu/Services/LLmModelService.cs:316-335 | one more fragment adds one chunk, numbered next |
| Chunks.ContentOfAppend | Lisa.AI.Blazor.Cpu/Services/LLmModelService.cs:224-439 | the text of two streams in sequence is the text of the first followed by that of the second |
| Chunks.ContentOfRun | Lisa.AI.Blazor.Cpu/Services/LLmModelService.cs:316-335 | a run of content chunks carries exactly the joined fragments |
| Chunks.ContentOfContentFree | Lisa.AI.Blazor.Cpu/Services/LLmModelService.cs:244-437 | role, finish and call chunks add no text |
| BufferedStream.Intercept | Lisa.AI.Blazor.Cpu/Services/LLmModelService.cs:264-336 | the loop over fragments: a tool call is recognised exactly when tools are on, a fourth fragment arrives and the first three pass the test. Then everything is held and only the role chunk was sent. A short reply with tools on sends nothing. Otherwise every fragment was sent, numbered 1..n |
| BufferedStream.ConcludeToolCall | Lisa.AI.Blazor.Cpu/Services/LLmModelService.cs:338-418 | after a recognised tool call, either the calls chunk and a `tool_calls` end chunk at index 0, or, when none is found, the held fragments and `stop` |
| BufferedStream.StreamFrames | Lisa.AI.Blazor.Cpu/Services/LLmModelService.cs:264-438 | the decoder produces the events `BufferedFrames` defines for the reply |
| BufferedStream.CreateChatCompletionStream | Lisa.AI.Blazor.Cpu/Services/LLmModelService.cs:224-439 | nothing for an empty request; the exception when the prompt cannot be built; otherwise the decoder's events for the generated reply |
| BufferedStream.PlainFacts | Lisa.AI.Blazor.Cpu/Services/LLmModelService.cs:316-437 | with tools off, the stream is framed (role chunk at 0, fragments at 1..n, `stop` at n + 1, `[DONE]`) and carries exactly the reply |
| BufferedStream.CallsStreamFacts | Lisa.AI.Blazor.Cpu/Services/LLmModelService.cs:342-417 | handing calls over sends the calls once, no text, and ends with `tool_calls` |
| BufferedStream.HeldStreamFacts | Lisa.AI.Blazor.Cpu/Services/LLmModelService.cs:421-437 | a held-back short reply gives a framed stream with no text that ends with `stop` |
| BufferedStream.DecodedFacts | Lisa.AI.Blazor.Cpu/Services/LLmModelService.cs:224-439 | every stream is framed. It ends with `tool_calls` exactly when tools are on, a call was recognised after a fourth fragment and calls were found; then it carries the calls and no text. Otherwise it ends with `stop` and, short replies with tools on aside, carries the whole reply |
| BufferedStream.ShortReplyDropped | Lisa.AI.Blazor.Cpu/Services/LLmModelService.cs:272-437 | with tools on, a non-empty reply of at most three fragments never reaches the client |
| BufferedStream.Flushed | Lisa.AI.Blazor.Cpu/Services/LLmModelService.cs:272-437 | the corrected decoder sends held fragments when the reply ends early, and agrees with the original everywhere else |
| BufferedStream.FlushedKeepsText | Lisa.AI.Blazor.Cpu/Services/LLmModelService.cs:224-439 | with the correction, every stream is framed and carries the whole reply unless it hands over tool calls |
| BreakingStream.SentUpToSnoc | Lisa.AI/Services/LLmModelService.cs:346-365 | sending one more fragment adds one content chunk with the next index |
| BreakingStream.Flags | Lisa.AI/Services/LLmModelService.cs:337-339 | flag j records whether the first j fragments pass the tool-call test |
| BreakingStream.FirstSet | Lisa.AI/Services/LLmModelService.cs:332-344 | the least position from the start whose flag is set, or none when no flag is set |
| BreakingStream.FirstSetAt | Lisa.AI/Services/LLmModelService.cs:332-344 | a set flag with no set flag before it is the first one |
| BreakingStream.Cut | Lisa.AI/Services/LLmModelService.cs:332-344 | the generator is stopped only with tools on, after at least three and at most all fragments |
| BreakingStream.CutIsFirst | Lisa.AI/Services/LLmModelService.cs:337-344 | it stops at the first prefix of three or more fragments that passes the test; when it runs to the end with tools on, no such prefix passes |
| BreakingStream.WithResults | Lisa.AI/Services/LLmModelService.cs:393-401 | the request keeps its messages and gains one report message per response, in response order; nothing else changes |
| BreakingStream.Functions | Lisa.AI/Services/LLmModelService.cs:459-467 | the name and arguments of each call, in order |
| BreakingStream.Watch | Lisa.AI/Services/LLmModelService.cs:329-366 | the loop breaks exactly when `Cut` stops it. Then the fragments read are held, the index is that of the last fragment sent, and the breaking fragment is unsent. Otherwise every fragment was sent, numbered 1..n |
| BreakingStream.AppendResults | Lisa.AI/Services/LLmModelService.cs:393-401 | the loop appending report messages yields the extended request |
| BreakingStream.Follow | Lisa.AI/Services/LLmModelService.cs:372-475 | no calls: nothing follows. An unregistered tool: the redirect, with the calls under new ids and nothing run. All registered: the calls run (responses in some order of the calls), their reports are appended and the extended request is generated once more |
| BreakingStream.Emit | Lisa.AI/Services/LLmModelService.cs:405-494 | sends what follows the tool call, then `stop` at the next index and `[DONE]`; a failing second prompt ends the stream where it is |
| BreakingStream.ToolModeIndex | Lisa.AI/Services/LLmModelService.cs:503-507 | with tools on, the protocol index is valid |
| BreakingStream.CreateChatCompletionStream | Lisa.AI/Services/LLmModelService.cs:289-495 | nothing for an empty request; the exception when the prompt cannot be built; otherwise the stream `StreamOf` defines, with the responses of the calls run in some order |
| BreakingStream.Converse | Lisa.AI/Services/LLmModelService.cs:329-494 | streams the first reply and what follows its tool call as `StreamFor` defines it; the responses are those of the calls run |
| BreakingStream.StreamForCut | Lisa.AI/Services/LLmModelService.cs:368-476 | when the generator is stopped at k, the stream and the calls run are those found in the trimmed text of the first k fragments |
| BreakingStream.StreamForWhole | Lisa.AI/Services/LLmModelService.cs:366-494 | when it is never stopped, the stream is every fragment then `stop`, and nothing is run |
| BreakingStream.BreakAt | Lisa.AI/Services/LLmModelService.cs:368-494 | after the break, extracts the calls from the trimmed text, follows them and closes the stream |
| BreakingStream.ContentOfOne | Lisa.AI/Services/LLmModelService.cs:346-365 | the text of one chunk is its delta's content, if any |
| BreakingStream.ClosedText | Lisa.AI/Services/LLmModelService.cs:478-494 | the `stop` chunk and `[DONE]` add no text |
| BreakingStream.SentText | Lisa.AI/Services/LLmModelService.cs:346-365 | the first n fragments sent carry their joined text |
| BreakingStream.FinishedText | Lisa.AI/Services/LLmModelService.cs:368-494 | what follows the first reply adds the redirect notice or the second reply to the text, and nothing else |
| BreakingStream.RedirectedText | Lisa.AI/Services/LLmModelService.cs:445-494 | the redirect adds exactly its notice to the text |
| BreakingStream.ReplayedText | Lisa.AI/Services/LLmModelService.cs:405-494 | the second reply adds exactly its fragments to the text |
| BreakingStream.BreakingText | Lisa.AI/Services/LLmModelService.cs:329-494 | the client reads the first reply up to, but not including, the fragment that completed the tool call (all of it when none did), then the notice or the second reply. When extraction finds nothing, the breaking fragment is lost |
| BreakingStream.BreakingFraming | Lisa.AI/Services/LLmModelService.cs:309-494 | the stream opens with the role chunk. It fails exactly when the second prompt cannot be built, and then stops where it is. Otherwise it ends with `stop`, numbered one past all content chunks, then `[DONE]`, even after a redirect |
| BreakingStream.FinishedFraming | Lisa.AI/Services/LLmModelService.cs:368-494 | what follows keeps what was sent in front; unless it failed it ends with `stop` at the next index after all content, then `[DONE]` |
| BreakingStream.ProtocolOffSendsAll | Lisa.AI/Services/LLmModelService.cs:332-494 | with tools off, the stream carries the whole reply, does not fail, and runs nothing |
| BreakingStream.EmptyRegistryRedirects | Lisa.AI/Services/LLmModelService.cs:429-474 | with the registry empty (as the service creates it at line 97), any detected call is redirected and nothing runs. The redirect repeats the calls' names and arguments under fresh ids and carries the notice |
| Completion.TextAnswerFacts | Lisa.AI.Blazor.Cpu/Services/LLmModelService.cs:191-215 | a text answer is well formed and carries the text and no calls. It counts every fragment and `total = prompt + completion`. It finishes with `length` exactly when the count reached a given maximum (never without one), and with `stop` otherwise |
| Completion.Drain | Lisa.AI.Blazor.Cpu/Services/LLmModelService.cs:137-142 | the read loop returns the joined fragments and their number |
| ReportingCompletion.CreateChatCompletion | Lisa.AI.Blazor.Cpu/Services/LLmModelService.cs:117-216 | empty response without messages; the exception when the prompt cannot be built; otherwise the calls found in the whole reply with tools on, else the text |
| ReportingCompletion.ReportedFacts | Lisa.AI.Blazor.Cpu/Services/LLmModelService.cs:149-214 | the answer is well formed and counts every fragment. It finishes with `tool_calls` exactly when calls were found, and then has the calls and no content; otherwise it has the whole reply |
| RunningCompletion.CreateChatCompletion | Lisa.AI/Services/LLmModelService.cs:128-281 | empty response without messages; the exception when the prompt cannot be built; otherwise the answer `AnswerOf` defines, with the responses of the calls run in some order |
| RunningCompletion.Complete | Lisa.AI/Services/LLmModelService.cs:149-280 | reads the first reply, runs the calls or prepares the redirect, and builds the answer `AnswerFor` defines |
| RunningCompletion.Finish | Lisa.AI/Services/LLmModelService.cs:196-280 | builds the answer from the first reply and what followed, counting the second reply's fragments on top of the first's |
| RunningCompletion.ConcludedFacts | Lisa.AI/Services/LLmModelService.cs:160-280 | fails only when the second prompt cannot be built, and every other answer is well formed. It finishes with `tool_calls` exactly after a redirect, and then carries the notice and the calls. Without calls it has the first reply's text; after running the calls, only the second reply's text, with completion tokens summed over both rounds |
| ToolRegistry.Respond | Lisa.AI/Services/ToolService.cs:85-120 | the response carries the call's id and type; an unregistered name gives `Tool '<name>' not registered.` |
| ToolRegistry.Responses | Lisa.AI/Services/ToolService.cs:85-120 | one response per call, the i-th answering call i |
| ToolRegistry.ResponseOutcomes | Lisa.AI/Services/ToolService.cs:85-120 | same id and type. The not-registered error exactly for an unknown name. For a known name, an error exactly when parsing the arguments (null parsed as `{}`) or the handler throws. An error response has no result |
| ToolRegistry.ToolService.constructor | Lisa.AI/Services/ToolService.cs:9 | the registry starts empty |
| ToolRegistry.ToolService.IsToolRegistered | Lisa.AI/Services/ToolService.cs:14 | true exactly when the name is a key |
| ToolRegistry.ToolService.RegisterTool | Lisa.AI/Services/ToolService.cs:19-26 | adds a new name; a name already registered keeps its old entry |
| ToolRegistry.ToolService.UnregisterTool | Lisa.AI/Services/ToolService.cs:31-37 | removes a registered name; an unknown name throws and changes nothing |
| ToolRegistry.ToolService.UpdateTool | Lisa.AI/Services/ToolService.cs:42-54 | replaces the entry of a registered name; an unknown name throws and changes nothing; the key set never changes |
| ToolRegistry.ToolService.GetRegisteredTools | Lisa.AI/Services/ToolService.cs:59-76 | one listing per key, named by the key, type `function`, schema type `object`, none twice. A tool registered without a parameter schema makes it throw |
| ToolRegistry.ToolService.ExecuteToolCalls | Lisa.AI/Services/ToolService.cs:81-123 | the responses are exactly the responses to the calls, one each, in some order |
| MemStore.Lookup | Lisa.AI/Singletons/MemDataStore.cs:29-33 | an absent key reads as null; a present value is the stored one |
| MemStore.Updated | Lisa.AI/Singletons/MemDataStore.cs:23-27 | with `addIfNotExist` off, an absent key leaves the store alone; otherwise the key holds the new value. No other key changes |
| MemStore.MemDataStore.constructor | Lisa.AI/Singletons/MemDataStore.cs:13-16 | the store starts empty |
| MemStore.MemDataStore.AddData | Lisa.AI/Singletons/MemDataStore.cs:18-21 | sets or overwrites one key only |
| MemStore.MemDataStore.UpdateData | Lisa.AI/Singletons/MemDataStore.cs:23-27 | an absent key without `addIfNotExist` returns false and changes nothing; otherwise the key is set, and the answer is whether the value is non-null |
| MemStore.MemDataStore.GetData | Lisa.AI/Singletons/MemDataStore.cs:29-33 | the stored value, or null for an absent key |
| MemStore.MemDataStore.RemoveData | Lisa.AI/Singletons/MemDataStore.cs:35-38 | true exactly when the key was present; afterwards it is absent and nothing else changed |
| MemStore.MemDataStore.IsExist | Lisa.AI/Singletons/MemDataStore.cs:40-43 | true exactly when the key is present, even with a null value |
| MemStore.MemDataStore.ClearData | Lisa.AI/Singletons/MemDataStore.cs:45-48 | the store is empty |
| MemStore.ReadBackAfterUpdate | Lisa.AI/Singletons/MemDataStore.cs:23-33 | reading a key after a successful update yields the value written |
| NodeSelector.Inc32 | Lisa.AI/Extensions/NodeServerExtensions.cs:56 | `count++` on a C# int: adds one, wrapping `int.MaxValue` to `int.MinValue` |
| NodeSelector.Dec32 | Lisa.AI/Extensions/NodeServerExtensions.cs:77 | `count--` on a C# int: subtracts one, wrapping `int.MinValue` to `int.MaxValue` |
| NodeSelector.Filter | Lisa.AI/Extensions/NodeServerExtensions.cs:21 | keeps exactly the servers with the kind's flag and a non-empty Url |
| NodeSelector.SelectNode | Lisa.AI/Extensions/NodeServerExtensions.cs:8-42 | the loop returns the outcome `Selected` defines |
| NodeSelector.RegisterNodeUse | Lisa.AI/Extensions/NodeServerExtensions.cs:44-62 | an invalid selection throws with the store unchanged; otherwise the counter `"{Url}_{selection}"` goes up by one (an absent counter counts as 0) and the answer is true |
| NodeSelector.UnregisterNodeUse | Lisa.AI/Extensions/NodeServerExtensions.cs:64-83 | a null or empty selection throws. A zero counter answers true with nothing changed, whatever the selection. Otherwise an invalid selection throws, and a valid one takes the counter down by one |
| NodeSelector.HeadIsEarliestMinimum | Lisa.AI/Extensions/NodeServerExtensions.cs:28-39 | a first candidate no heavier than any later one is the earliest of minimal load |
| NodeSelector.ShiftEarliestMinimum | Lisa.AI/Extensions/NodeServerExtensions.cs:28-39 | a heavier first candidate moves the earliest minimum one place on |
| NodeSelector.ScanKeepsChoice | Lisa.AI/Extensions/NodeServerExtensions.cs:33-37 | with the strict `<`, no candidate below the lowest count keeps the current choice |
| NodeSelector.ScanPicksEarliestMinimum | Lisa.AI/Extensions/NodeServerExtensions.cs:25-41 | when some candidate is below the lowest count, the scan picks the earliest candidate of minimal load |
| NodeSelector.SelectionErrors | Lisa.AI/Extensions/NodeServerExtensions.cs:10-19 | throws exactly for a null or empty selection or one other than gpt, embedding or vision (any case), even with no servers |
| NodeSelector.SelectionIsLeastLoaded | Lisa.AI/Extensions/NodeServerExtensions.cs:13-41 | for a valid selection it returns null exactly when no eligible server has a count below `int.MaxValue`. Otherwise it returns an eligible server of minimal count, the earliest among ties; missing counters count as 0 |
| NodeSelector.RegisterAddsOne | Lisa.AI/Extensions/NodeServerExtensions.cs:49-57 | below `int.MaxValue`, registering raises only that server's counter, by exactly one |
| NodeSelector.UnregisterStaysNonNegative | Lisa.AI/Extensions/NodeServerExtensions.cs:70-78 | releasing a use never takes a non-negative counter below zero |
| NodeSelector.RegisterThenUnregister | Lisa.AI/Extensions/NodeServerExtensions.cs:44-83 | registering then releasing a use restores the counter (unless it was -1, where the increment lands on the zero case) |

## Left out

- The generator, model loading and disposal, the embedder, cancellation tokens, GUIDs, timestamps and sampling seeds are parameters or omitted. Chunk ids and creation times are not part of a `Frame`.
- JSON serialisation and deserialisation are foreign: `JsonEncoder` and `ArgumentParser` are parameters, and `ValidateTool` (Lisa.AI/Services/ToolService.cs:128-132) is not modelled because it only compares two serialised schemas.
- The regular-expression engine is a parameter (`RegexEngine`); what `FN_TEST` matches is not modelled.
- `string.Format` alignment and format specifiers (`{0,5}`, `{0:N}`) yield a `FormatError` instead of .NET's formatting; the protocol templates use plain placeholders.
- `ToolPrompt.IsToolActive` (through `Text.StartsWith`) compares the prefix character by character. .NET's `string.StartsWith(string)` compares under the current culture, which can ignore some characters such as the soft hyphen; that is not modelled.
- `RequestShaping.NonBlank`: its own contract states which strings are kept; that it keeps their order is stated by `NonBlankAppend`, `NonBlankKeepsAll` and `NonBlankKeepsOrder`.
- `Text.ToLower` lower-cases ASCII letters only; culture-specific casing is not modelled.
- `Text.Replace`: its contract only states the no-occurrence case; the left-to-right replacement is given by its definition.
- `ToolRegistry.ToolService.ExecuteToolCalls`: the calls run concurrently, so only the multiset of responses is promised. The services that use it are specified for every order of the responses.
- `ToolRegistry.ToolService.GetRegisteredTools`: `ConcurrentDictionary` enumeration order is unspecified, so the listing's order is not promised.
- Concurrency in general (`ConcurrentDictionary`, `Task.WhenAll`, the decorator's counters and idle timer) is left out; every operation is atomic in the model.
- The non-streamed Lisa.AI answer builds `prompt_context` (Lisa.AI/Services/LLmModelService.cs:142-143) and never reads it; it is not modelled.
- The redirect instructions are passed to the answer builders as `notice`. Both services fix them to `Chunks.RedirectText`, which copies the literal, indentation included.
- The Lisa.AI `BaseHistoryTransform` that the Lisa.AI LLama, Gemma and Zephyr transforms derive from is not part of this model. It is assumed to behave like the Blazor CPU one, so every transform runs the same compiler with its own `TemplateSet`.
- A configured transform type is given as `Configured(Some(tokens))` when the type resolves and `Configured(None)` when it does not; reflection itself is not modelled.
- The plain completion endpoints, the embedding endpoint, model switching, `GetModelInfo`, the controllers, the middleware, `Program.cs` and `GPTChat` are not part of this model.
- `AppendLine` writes `"\n"` (the Linux line separator).
- Blank-string tests follow `char.IsWhiteSpace` for the Latin-1 and common Unicode separators listed in `Text.IsWhiteSpace`.

## Findings

| source | as written | input that shows it | evidently intended | confidence | as-written member | corrected member |
|---|---|---|---|---|---|---|
| Lisa.AI.Blazor.Cpu/Services/LLmModelService.cs:272-437 | with the tool prompt on, the first three fragments are buffered and only released when a fourth arrives; at the end of a reply of three or fewer fragments the buffer is never sent | tools on and a reply of the fragments `"Hi"`, `"!"`: the stream is the role chunk, `stop` at index 1 and `[DONE]`, with no text | the held fragments are sent before the closing `stop` chunk, so the client receives the reply | not executed | BufferedStream.ShortReplyDropped | BufferedStream.Flushed |

The service model (`BufferedStream.CreateChatCompletionStream`) keeps the decoder as written.
`BufferedStream.Flushed` and `BufferedStream.FlushedKeepsText` give the corrected decoder: it
agrees with the original on every other input, and with it no reply text is lost.
