# nest-job-hub core, modelled in Dafny

nest-job-hub is a NestJS service that mostly forwards requests to the OpenAI and
Google Custom Search APIs. Five small pieces of it hold logic of their own, and
this project models those five:

- **The agent conversation store** (`DeveloperAgent`, in `developer_agent.dfy`).
  The developer agent keeps a process-wide `Map` from conversation id to message
  log. The model is the class `ConversationStore` over a `map<string, seq<Message>>`.
  - A prompt that is blank after JavaScript `trim` is rejected.
  - Otherwise the stored turns are serialised as `role: content` lines, followed by
    `user: <prompt>` and joined with `\n`, and the result is handed to the agent run.
  - On success the `{user, assistant}` pair is appended and the log is cut to its
    ten newest entries.
- **The chat log with a seeded system turn** (`JavascriptDeveloper`, in
  `javascript_developer.dfy`). The JavaScript-developer chat keeps a process-wide
  record of logs. The model is the class `ChatStore`.
  - A log is seeded with one system message for a new id.
  - The user message is pushed before the completion call and the assistant
    message after it.
  - Only the messages sent along are windowed, to `[log[0], ...log.slice(-10)]`.
    The log itself grows without bound.
- **The web-search tool's `execute`** (`GoogleWebSearchTool`). It turns a search
  outcome into text: a "no results" sentence, a header followed by numbered entries,
  or an error sentence.
- **The search service's post-fetch branch** (`GoogleSearchService`). An API
  error becomes a failure. Missing or empty items give `[]`. Otherwise the first
  three items are projected to title, snippet and link.
- **The audio upload validator** (`AudioFileValidator`). It runs three ordered
  checks (presence, size of at most 1000 * 1024 * 5 bytes, MIME type in an
  11-entry allow-list) and returns an accepted file unchanged.

`Results` holds the `Option` and `Result` datatypes. A thrown exception is an
`Err` carrying the exception's message. `Text` holds the JavaScript string
operations the core relies on:
- `Array.prototype.join`;
- `String.prototype.trim`, over the ECMAScript WhiteSpace and LineTerminator
  characters;
- decimal rendering of a natural number.

The opaque SDK calls are parameters of arrow type:
- `run(agent, input)` from `@openai/agents`;
- `openai.chat.completions.create`.

The HTTP fetch of the search service is not a call in the model. Its outcome, the
decoded response or the fetch's failure message, is a value parameter of
`GoogleWebSearchTool.Execute`.

`new Date().toISOString()` values are string parameters.

The two stores follow different policies:
- The JavaScript-developer log is never trimmed, and its system message is sent
  twice while the log is short.
- The agent store seeds no system turn. Its instructions travel inside the agent
  configuration instead.

## Model

| member | source | states |
|---|---|---|
| AudioFileValidator.Transform | src/gpt/validators/audio-file.validator.ts:21-38 | A missing file fails with "No file uploaded". A size above the maximum fails with "File is bigger than 5 MB". Otherwise a MIME type outside the allow-list fails with the prefix plus the received type. The call succeeds exactly when all three checks pass, and then returns the same file. |
| AudioFileValidator.SizeBoundary | src/gpt/validators/audio-file.validator.ts:19-29 | The maximum is 5,120,000. A file of exactly that size passes the size check, and one byte more is rejected as too big. |
| AudioFileValidator.SizeCheckedBeforeType | src/gpt/validators/audio-file.validator.ts:22-36 | An oversize file with a bad MIME type reports the size error: the checks run in order. |
| AudioFileValidator.TypeMatchIsExact | src/gpt/validators/audio-file.validator.ts:32-36 | MIME matching is exact membership. "audio/MPEG" and "audio/mpeg;codecs=mp3" are rejected, and "audio/mpeg" is accepted. |
| AudioFileValidator.TransformIdempotent | src/gpt/validators/audio-file.validator.ts:38 | Validating an accepted file again accepts it again, unchanged. |
| AudioFileValidator.AllowListShape | src/gpt/validators/audio-file.validator.ts:5-17 | The allow-list has 11 distinct entries, each starting with "audio/". |
| GoogleSearchService.ErrorMessage | src/sam-agent/services/google-search.service.ts:12-14 | Definition of the thrown message "Google API error: <code> - <message>". Stated by GoogleSearchService.Search, with the code's digits reading back by Text.DecimalRoundTrip. |
| GoogleSearchService.Project | src/sam-agent/services/google-search.service.ts:21-25 | A result keeps the item's title, snippet and link. |
| GoogleSearchService.Search | src/sam-agent/services/google-search.service.ts:11-25 | An error field fails with "Google API error: <code> - <message>". Without an error the call succeeds. Missing items give `[]`. The result length is min(3, number of items), and result i is the projection of item i. |
| GoogleSearchService.ErrorTakesPrecedence | src/sam-agent/services/google-search.service.ts:11-19 | With an error field present, the items do not matter and the call fails. |
| GoogleSearchService.LaterItemsIgnored | src/sam-agent/services/google-search.service.ts:21 | Items after the third never affect the result. |
| GoogleSearchService.OnlyDisplayedFieldsMatter | src/sam-agent/services/google-search.service.ts:21-25 | Two item lists that agree on title, snippet and link give the same result. |
| GoogleWebSearchTool.Entry | src/sam-agent/tools/google-web-search.tool.ts:31 | Definition of one result's block. Stated by GoogleWebSearchTool.FormatSingle and GoogleWebSearchTool.EntryNumberReadsBack. |
| GoogleWebSearchTool.Entries | src/sam-agent/tools/google-web-search.tool.ts:30-32 | Definition of the numbered blocks, one per result. Stated by GoogleWebSearchTool.FormatAppend and GoogleWebSearchTool.EntryNumberReadsBack. |
| GoogleWebSearchTool.FormatOutcome | src/sam-agent/tools/google-web-search.tool.ts:25-37 | A failure gives `Error al buscar "<query>": <message>`. Zero results give `No se encontraron resultados para "<query>".`. Otherwise the text is the header, then `\n\n`, then the numbered entries joined by `\n\n`. |
| GoogleWebSearchTool.Execute | src/sam-agent/tools/google-web-search.tool.ts:19-37 | A fetch failure or an API error comes back as error text, never as a failure. Missing or empty items give the no-results text. |
| GoogleWebSearchTool.FormatSingle | src/sam-agent/tools/google-web-search.tool.ts:29-33 | One result renders as the header, the separator and entry "1. **title**\n   snippet\n   link". |
| GoogleWebSearchTool.FormatAppend | src/sam-agent/tools/google-web-search.tool.ts:29-33 | One more result appends the separator and an entry numbered with its 1-based position, and the earlier text stays as it was (one entry per result, in search order). |
| GoogleWebSearchTool.ClassifyRecoversOutcome | src/sam-agent/tools/google-web-search.tool.ts:25-37 | The three kinds of answer text are distinguishable by their opening words, so the outcome kind can be read back from the text. |
| GoogleWebSearchTool.EntryNumberReadsBack | src/sam-agent/tools/google-web-search.tool.ts:31 | Entry i opens with the decimal digits of i + 1, and those digits read back as i + 1. |
| GoogleWebSearchTool.NoResultsIsNotAnError | src/sam-agent/tools/google-web-search.tool.ts:25-27 | For every query, a response with no error and with `items` missing or empty gives exactly `No se encontraron resultados para "<query>".`, not error text. |
| Text.JoinSnoc | src/sam-agent/tools/google-web-search.tool.ts:33 | Joining a non-empty list with one more part adds the separator and that part. |
| Text.Join | src/sam-agent/tools/google-web-search.tool.ts:30-33 | Definition of `Array.prototype.join`, also used for the agent context at src/sam-agent/use-cases/developer.use-case.ts:50-53. Stated by Text.JoinSnoc. |
| Text.Trim | src/sam-agent/use-cases/developer.use-case.ts:26 | Definition of `String.prototype.trim`. Stated by Text.TrimStartSpec, Text.TrimEndSpec and Text.TrimEmptyIffBlank. |
| Text.TrimStartSpec | src/sam-agent/use-cases/developer.use-case.ts:26 | Trimming the start removes exactly a whitespace prefix, and what is left does not start with whitespace. |
| Text.TrimEndSpec | src/sam-agent/use-cases/developer.use-case.ts:26 | Trimming the end removes exactly a whitespace suffix, and what is left does not end with whitespace. |
| Text.TrimEmptyIffBlank | src/sam-agent/use-cases/developer.use-case.ts:26 | `trim` gives the empty string if and only if every character is JavaScript whitespace. |
| Text.NatToDecimal | src/sam-agent/services/google-search.service.ts:13 | Rendering a number gives at least one digit, all characters are digits, and there is no leading zero. |
| Text.DecimalRoundTrip | src/sam-agent/services/google-search.service.ts:13 | Reading the rendered digits back gives the number. |
| DeveloperAgent.MakeAgent | src/sam-agent/use-cases/developer.use-case.ts:24-48 | The agent uses the given model, or "gpt-4o-mini" when none is given, and has the web-search tool as its only tool. |
| DeveloperAgent.InstructionsText | src/sam-agent/use-cases/developer.use-case.ts:37-47 | Definition of the instruction text. Stated by DeveloperAgent.InstructionsCarryRequest. |
| DeveloperAgent.InstructionsCarryRequest | src/sam-agent/use-cases/developer.use-case.ts:33-47 | The agent is named "Developer Agent". Its instruction text is the fixed head, then the conversation id verbatim, then the fixed middle, then the prompt verbatim, then the fixed tail. |
| DeveloperAgent.PromptWithHistory | src/sam-agent/use-cases/developer.use-case.ts:50-53 | Definition of the context string. Stated by DeveloperAgent.PromptWithoutHistory, DeveloperAgent.PromptAfterHistory and DeveloperAgent.HistoryLinesInStoredOrder. |
| DeveloperAgent.PromptWithoutHistory | src/sam-agent/use-cases/developer.use-case.ts:50-53 | With an empty history (an unseen id), the context is just `user: <prompt>`. |
| DeveloperAgent.PromptAfterHistory | src/sam-agent/use-cases/developer.use-case.ts:50-53 | With prior turns, the context is their `role: content` lines joined by `\n`, then `\n` and `user: <prompt>`. |
| DeveloperAgent.HistoryLinesInStoredOrder | src/sam-agent/use-cases/developer.use-case.ts:50-53 | In the agent's input, a turn stored after others has its line after theirs, and the new prompt's `user:` line comes last. |
| DeveloperAgent.StoredReply | src/sam-agent/use-cases/developer.use-case.ts:56-57 | The stored reply is never empty. It is the final output when that is a non-empty string, and otherwise the fallback "No se recibió una respuesta válida.". |
| DeveloperAgent.Window | src/sam-agent/use-cases/developer.use-case.ts:73-80 | Trimming keeps min(length, 10) entries, and they are the log's newest entries. |
| DeveloperAgent.AppendExchange | src/sam-agent/use-cases/developer.use-case.ts:70-80 | Definition of the stored log after a successful request. Stated by DeveloperAgent.AppendExchangeShape, DeveloperAgent.AppendExchangeAtCapacity and DeveloperAgent.AppendExchangeKeepsWellFormed. |
| DeveloperAgent.AppendExchangeShape | src/sam-agent/use-cases/developer.use-case.ts:60-80 | After an exchange the log holds min(old length + 2, 10) entries and never more than 10. It ends with the user turn and then the reply. It is a suffix of the old log followed by that pair, so retained entries keep their order. |
| DeveloperAgent.AppendExchangeAtCapacity | src/sam-agent/use-cases/developer.use-case.ts:73-77 | On a full log of 10, the two oldest entries are evicted and the new pair is appended. |
| DeveloperAgent.AppendExchangeKeepsWellFormed | src/sam-agent/use-cases/developer.use-case.ts:60-80 | A log of at most 10 entries, of even length, alternating user and assistant from the start, stays so after an exchange. |
| DeveloperAgent.WindowAbsorbs | src/sam-agent/use-cases/developer.use-case.ts:70-80 | Trimming before appending any tail and then trimming again gives the same log as appending first and trimming once, so trimming after every exchange equals trimming once at the end. |
| DeveloperAgent.ReplayKeepsMostRecent | src/sam-agent/use-cases/developer.use-case.ts:70-80 | After any sequence of exchanges on one id, the log is the ten newest turns of all turns ever appended. |
| DeveloperAgent.ReplayLength | src/sam-agent/use-cases/developer.use-case.ts:19-80 | After k successful exchanges the log holds min(2k, 10) entries. |
| DeveloperAgent.StoreUpdateKeepsWellFormed | src/sam-agent/use-cases/developer.use-case.ts:71-80 | Writing a well-formed log under one id keeps every log of the store well formed. |
| DeveloperAgent.ConversationStore.constructor | src/sam-agent/use-cases/developer.use-case.ts:21 | The store starts empty. |
| DeveloperAgent.ConversationStore.History | src/sam-agent/use-cases/developer.use-case.ts:31 | Definition of `get(id) \|\| []`: an unseen id reads as the empty history. Used by DeveloperAgent.ConversationStore.Develop's contract and stated by DeveloperAgent.PromptWithoutHistory. |
| DeveloperAgent.ConversationStore.Develop | src/sam-agent/use-cases/developer.use-case.ts:23-96 | A blank prompt fails with "The prompt cannot be empty.", before the run, leaving the map unchanged. A failed run fails with "Failed to process developer request: " plus its message, leaving the map unchanged. On success the raw final output is returned and the logged record counts history length + 2. The map becomes the old map with only this id set to the trimmed log holding the user turn and the stored reply. Every stored log stays well formed. |
| JavascriptDeveloper.SliceFrom | src/gpt/use-cases/javascript-developer.use-case.ts:34 | Definition of `Array.prototype.slice(start)` with a negative or out-of-range start. Stated through JavascriptDeveloper.MessagesToSendShape. |
| JavascriptDeveloper.MessagesToSend | src/gpt/use-cases/javascript-developer.use-case.ts:32-35 | Definition of `[log[0], ...log.slice(-10)]`. Stated by JavascriptDeveloper.MessagesToSendShape, JavascriptDeveloper.SystemSentTwiceWhileShort, JavascriptDeveloper.SystemSentOnceWhenLong and JavascriptDeveloper.LastSentIsPrompt. |
| JavascriptDeveloper.MessagesToSendShape | src/gpt/use-cases/javascript-developer.use-case.ts:32-35 | The messages sent are the log's first message followed by the whole log when it holds at most 10 messages, else by exactly its 10 newest. That is between 2 and 11 messages, ending with the log's newest. |
| JavascriptDeveloper.SystemSentTwiceWhileShort | src/gpt/use-cases/javascript-developer.use-case.ts:33-34 | While the log holds at most 10 messages, the system message is sent at positions 0 and 1. |
| JavascriptDeveloper.SystemSentOnceWhenLong | src/gpt/use-cases/javascript-developer.use-case.ts:32-35 | Once the log is longer, the system message is sent only at position 0. |
| JavascriptDeveloper.LastSentIsPrompt | src/gpt/use-cases/javascript-developer.use-case.ts:30-35 | The newest message sent is the user message just pushed. |
| JavascriptDeveloper.Step | src/gpt/use-cases/javascript-developer.use-case.ts:30-44 | Definition of the log after one request. Stated by JavascriptDeveloper.StepNeverTrims, JavascriptDeveloper.StepKeepsWellFormed and JavascriptDeveloper.ReplayLength. |
| JavascriptDeveloper.StepNeverTrims | src/gpt/use-cases/javascript-developer.use-case.ts:30-44 | A request keeps the old log as a prefix and adds the user message. It adds the assistant message only on success, so the log grows by 2 on success and by 1 on failure. |
| JavascriptDeveloper.StepKeepsWellFormed | src/gpt/use-cases/javascript-developer.use-case.ts:17-44 | A log that starts with the system message and has no other system message keeps that shape, and holds exactly one system message. |
| JavascriptDeveloper.ReplayLength | src/gpt/use-cases/javascript-developer.use-case.ts:17-44 | After n requests of which k succeeded, a fresh id's log holds 1 + n + k messages (no bound), and it stays well formed. |
| JavascriptDeveloper.LogBefore | src/gpt/use-cases/javascript-developer.use-case.ts:17-28 | Definition of the own-key lookup with seeding. Stated by JavascriptDeveloper.LogBeforeSeedsOnce, and compared with the lookup as written by JavascriptDeveloper.PushTargetAsWritten. |
| JavascriptDeveloper.LogBeforeSeedsOnce | src/gpt/use-cases/javascript-developer.use-case.ts:17-28 | An unseen id starts from a log holding exactly one system message, and a stored log is never re-seeded. |
| JavascriptDeveloper.PushTargetAsWritten | src/gpt/use-cases/javascript-developer.use-case.ts:9-30 | The lookup as written agrees with the own-key lookup on every id that is not an inherited `Object.prototype` member. On an unseen inherited name it yields no array, which stands for the thrown TypeError. |
| JavascriptDeveloper.ConstructorIdFailsAsWritten | src/gpt/use-cases/javascript-developer.use-case.ts:9-30 | On an empty record the id "constructor" has no array to push to as written, while the intended lookup seeds a fresh log. |
| JavascriptDeveloper.StoreUpdateKeepsWellFormed | src/gpt/use-cases/javascript-developer.use-case.ts:17-44 | Writing a well-formed log under one id keeps every log of the store well formed. |
| JavascriptDeveloper.ChatStore.constructor | src/gpt/use-cases/javascript-developer.use-case.ts:9-12 | The record starts empty. |
| JavascriptDeveloper.ChatStore.Develop | src/gpt/use-cases/javascript-developer.use-case.ts:14-47 | The log is read through the own-key lookup, the corrected half of the finding below. The completion is asked with model "gpt-4.1-nano" and the window of the seeded log plus the user message. What it yields is returned as is: the assistant content on success, or the failure. The record becomes the old one with only this id set to that log, plus the assistant message on success. The user message stays after a failure. Every log stays well formed. |

## Left out

- The OpenAI calls (`run(agent, input)` with the agent's own tool loop, and `openai.chat.completions.create`) are parameters of arrow type. Hop counts, tool selection and streaming are not modelled, and `completion.choices[0]` is taken to exist.
- The HTTP fetch, the URL built from environment variables, `encodeURIComponent` and JSON decoding are not modelled. `GoogleWebSearchTool.Execute` receives the decoded response, or the fetch's failure message, as a parameter.
- The decoded Google response is narrowed to an optional error (numeric code and message) and an optional item list whose items always carry string `title`, `snippet` and `link`. A non-numeric error code and a non-array `items` value are not modelled. Nor is an item missing one of those three fields: the source projects it as `undefined`, and the tool then prints the text "undefined" in that place.
- The zod parameter schema of the web-search tool is not modelled. The query is a string.
- `console.log` and `console.error` are not modelled, with one exception: the agent's logged response record is returned as an extra result so that its `messageCount` can be stated.
- Timestamps (`new Date().toISOString()`) are string parameters.
- Concurrent requests on one conversation id are not modelled: each request is one sequential step.
- DeveloperAgent.MakeAgent: the instructions are kept as a template value holding the conversation id and the prompt. `InstructionsText` renders the exact text, and DeveloperAgent.InstructionsCarryRequest states where the id and the prompt sit in it. The fixed wording of the template is given by its constants and stated by no lemma.
- DeveloperAgent.ConversationStore.Develop: the intermediate write of the untrimmed log is overwritten within the same step and cannot be observed, The body performs both writes as the source does, but the contract states only the final state of the map. The `tools` option is accepted but never read, as in the source.
- JavascriptDeveloper.ChatStore.Develop: models the corrected own-key lookup. Take an unseen id that names an inherited `Object.prototype` member, such as "constructor", "toString" or "__proto__". On such an id the source throws a TypeError at the user-message `push`, before the completion is asked, and leaves the record unchanged. Develop instead seeds that id like any other. JavascriptDeveloper.PushTargetAsWritten models the lookup as written (see "## Findings"). Develop also stores only the role and the content of the assistant message. The source pushes the whole `completion.choices[0].message` object, with `refusal`, `annotations` and any other fields, and sends it back in later requests. The model's `complete` never sees those other fields.
- The NestJS pipe wrapper, the `BadRequestException` class and its HTTP status are not modelled. A rejection is an `Err` carrying the exception's message.
- The image and audio use cases, the other GPT prompt use cases, controllers, services, modules, DTOs and file-system helpers are not part of this model: they are thin wrappers over the SDKs or the file system.

## Findings

| source | as written | input that shows it | evidently intended | confidence | as-written member | corrected member |
|---|---|---|---|---|---|---|
| src/gpt/use-cases/javascript-developer.use-case.ts:9-30 | `conversations` is a plain object literal, so reading an unseen id that names an inherited `Object.prototype` member gives a truthy non-array. The seeding is then skipped, and `push` throws a TypeError. | conversationId "constructor" (likewise "toString", "__proto__", "hasOwnProperty") on a fresh process | every id starts a fresh conversation seeded with the system message | high (not executed) | JavascriptDeveloper.ConstructorIdFailsAsWritten | JavascriptDeveloper.LogBeforeSeedsOnce |
