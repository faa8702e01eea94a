# Creative agent and site rules of fysp11.github.io, in Dafny

This project models the logic of a portfolio site built with Astro and React islands. At
its centre is the creative-agent pipeline. It turns an instruction into a story plan, a
story, a synopsis, an image prompt and an optional image. It makes these through a hosted
Workers AI binding, behind a FIFO request queue and a retry policy that retries only
overload errors (`error code: 1031`). Around it the project models:

- the server actions, with their read-through KV cache keyed by a hex SHA-256 of the prompt;
- four API routes: `ai-chat`, `google-chat`, `ai-image` and `tts`;
- the option, guard and video-polling rules of the `useCreativeAgent` hook;
- the experience sort;
- the robots-header middleware;
- the navigation menu;
- the two theme buttons.

Foreign calls are parameters of the model:

- the model binding is an oracle from a request and its attempt number to an outcome;
- the others are functions passed in: the SHA-256 digest, `atob`, `fetch`,
  `encodeURIComponent`, `JSON.parse` and `request.json()`.

Everything else is stated in Dafny's own terms:

- JavaScript values are a `JsValue` datatype, with `!!v`, `??`, `?.`, `String(v)` and `key in v` written out.
- Strings are `seq<char>`, and `trim` removes ECMAScript white space.
- Parts that change state in place are classes: the queue, the KV namespace, the response
  headers, the menu, the theme buttons and the video session.
- The in-place sort of `getExperiences` is an insertion sort on an `array`.

One module per source file:

| module | file |
|---|---|
| Js, Text, Http | JavaScript value semantics, string operations, `json` responses |
| Queue, RetryPolicy, Adapter, Agent | src/lib/langchain/creativeAgent.ts |
| Actions | src/actions/ai.ts |
| AiChat, GoogleChat, AiImage, Tts | src/pages/api/*.ts |
| AgentHook, VideoJob | src/components/demos/useCreativeAgent.ts |
| Experiences | src/server/data.ts |
| Middleware | src/middleware.ts |
| MenuModel | src/components/menu/Menu.tsx |
| ThemeToggle, UiThemeToggle | the two ThemeToggleButton.tsx files |

Four behaviours of the code worth noting:

- An image result without an `image` field does not fail the run. It leaves `imageBase64` as `null`.
- The pipeline never checks that a stage's text is non-empty.
- The non-empty instruction is checked only by the action's `min(1)` schema, not by `runCreativeAgent`.
- A failed read of the image cache is not treated as a miss. It fails the `generateImage` action. Only the story handler catches read errors.

## Model

| member | source | states |
|---|---|---|
| Queue.DrainRunsEachOnceInOrder | src/lib/langchain/creativeAgent.ts:46-55 | a drain settles one promise per pending task, the i-th from the i-th task pushed |
| Queue.DrainAppend | src/lib/langchain/creativeAgent.ts:46-55 | draining two batches is draining the first, then the second, so a failure never stops later tasks |
| Queue.RequestQueue.constructor | src/lib/langchain/creativeAgent.ts:23-24 | a new queue is empty and idle |
| Queue.RequestQueue.Process | src/lib/langchain/creativeAgent.ts:40-57 | a no-op while draining or empty; otherwise every waiting task is run oldest first, the queue is emptied and the flag is cleared |
| Queue.RequestQueue.Enqueue | src/lib/langchain/creativeAgent.ts:26-38 | on an idle queue the task runs at once and its own settlement comes back; while busy it waits at the back and its promise stays pending |
| Queue.SequentialCallers | src/lib/langchain/creativeAgent.ts:26-57 | callers enqueuing one after another settle in push order, each from its own task, and the queue ends idle and empty |
| RetryPolicy.DigitRun | src/lib/langchain/creativeAgent.ts:75 | the greedy `\d+`: the longest all-digit prefix |
| RetryPolicy.ErrorCode | src/lib/langchain/creativeAgent.ts:75 | a found code is non-empty |
| RetryPolicy.NoMatchNoCode | src/lib/langchain/creativeAgent.ts:75 | there is no code exactly when the pattern matches at no position |
| RetryPolicy.NoCodeNotOverload | src/lib/langchain/creativeAgent.ts:75-78 | a message without `error code: N` is never retried |
| RetryPolicy.LeadingCode | src/lib/langchain/creativeAgent.ts:75-78 | `error code: 1031` followed by anything but a digit is retried; a longer code such as 10312 is not |
| RetryPolicy.Pow2 | src/lib/langchain/creativeAgent.ts:86 | `2^n` is at least 1 |
| RetryPolicy.BackoffDelay | src/lib/langchain/creativeAgent.ts:85-88 | the delay is `1000 * 2^(n-1)` capped at 5000 |
| RetryPolicy.RetryWithBackoff | src/lib/langchain/creativeAgent.ts:63-97 | the loop's result, call count and recorded delays are those of the policy specification |
| RetryPolicy.RetryShape | src/lib/langchain/creativeAgent.ts:69-94 | 1 to 3 calls; every call but the last failed with 1031; the result is the last call's outcome; the run stops early only on success or a non-1031 error; one delay per retry, the k-th being `BackoffDelay(k)` |
| RetryPolicy.RetryFromShape | src/lib/langchain/creativeAgent.ts:69-94 | the same shape for the loop entered at any attempt |
| RetryPolicy.FirstSuccess | src/lib/langchain/creativeAgent.ts:69-72 | a first success is returned unchanged after one call and no delay |
| RetryPolicy.NonOverloadFailsFast | src/lib/langchain/creativeAgent.ts:78-82 | an error not tagged 1031 is rethrown after exactly one call |
| RetryPolicy.Exhaustion | src/lib/langchain/creativeAgent.ts:78-82 | three 1031 failures: three calls, delays 1000 and 2000, and the third error is thrown |
| RetryPolicy.RecoveryOnThirdAttempt | src/lib/langchain/creativeAgent.ts:69-93 | two 1031 failures and then a success return that success after three calls |
| RetryPolicy.BackoffValues | src/lib/langchain/creativeAgent.ts:15-19 | the delays are 1000, 2000 and 4000, then 5000 for every later attempt |
| Adapter.RunOnce | src/lib/langchain/creativeAgent.ts:166 | a bound binding is asked once; an entry without a callable `run` throws |
| Adapter.RoleOf | src/lib/langchain/creativeAgent.ts:140-149 | `system` maps to system and `human` to user, exactly; any other type maps to assistant |
| Adapter.FormatMessages | src/lib/langchain/creativeAgent.ts:138-156 | one message per input, in order, with the role of its type and the same text |
| Adapter.ModelName | src/lib/langchain/creativeAgent.ts:120 | the given model, else `@cf/meta/llama-3.1-8b-instruct` |
| Adapter.ChatModelCall | src/lib/langchain/creativeAgent.ts:158-185 | a binding error is rethrown unchanged; a result without `response` fails with "did not return text content"; otherwise the `response` text |
| Agent.Resolve | src/lib/langchain/creativeAgent.ts:273-282 | the trimmed field when it is non-blank, else the field's own default |
| Agent.ResolvedIsTrimmedNonBlank | src/lib/langchain/creativeAgent.ts:273-282 | a resolved setting is never blank and never padded |
| Agent.ResolveIdempotent | src/lib/langchain/creativeAgent.ts:273-282 | resolving a resolved value again changes nothing |
| Agent.MissingFieldsResolveToDefault | src/lib/langchain/creativeAgent.ts:273-282 | undefined, `null` and all-whitespace fields all give the default |
| Agent.StageCalls | src/lib/langchain/creativeAgent.ts:286-293 | a stage's calls repeat the same request with attempts 1..n |
| Agent.TextStage | src/lib/langchain/creativeAgent.ts:285-337 | a text stage makes 1 to 3 identical chat calls, and its outcome is the last call's |
| Agent.ImageStageRun | src/lib/langchain/creativeAgent.ts:344-350 | the image stage makes 1 to 3 identical `{ prompt }` calls to the flux model, and its outcome is the last call's |
| Agent.ImageField | src/lib/langchain/creativeAgent.ts:352-357 | `imageBase64` is the `image` field when the result has one, else `null` |
| Agent.RunCreativeAgent | src/lib/langchain/creativeAgent.ts:252-386 | the method's output or error and its full list of binding calls equal the stage-by-stage specification |
| Agent.SuccessfulRunChaining | src/lib/langchain/creativeAgent.ts:285-368 | in a successful run the calls come in stage order and each sends the request built from the earlier stages' outputs; the image model is called exactly when `generateImage` is true; the output holds the four texts and the resolved settings |
| Agent.TextStageFailure | src/lib/langchain/creativeAgent.ts:285-337 | a failing text stage's error is the outcome of its last call |
| Agent.FailureIsLastCallError | src/lib/langchain/creativeAgent.ts:369-385 | a failed run rethrows the error of its very last binding call; its calls go in stage order, and none belongs to a stage after the failing one |
| Agent.PlanFailureStopsAtOnce | src/lib/langchain/creativeAgent.ts:285-294 | a plan error not tagged 1031 ends the run after one call |
| Agent.TextPromptsCarryTheirInputs | src/lib/langchain/creativeAgent.ts:217-239 | the plan prompt holds the instruction and tone, the story prompt the plan and instruction, and the synopsis prompt the story |
| Agent.ImagePromptCarriesItsInputs | src/lib/langchain/creativeAgent.ts:241-250 | the image-prompt request holds the story and every resolved setting |
| Actions.HexDigit | src/actions/ai.ts:13 | a digit of base 16 is `0`-`9` or `a`-`f` |
| Actions.PadStart2 | src/actions/ai.ts:13 | `padStart(2, "0")` leaves two-character strings alone |
| Actions.ByteHex | src/actions/ai.ts:13 | a byte renders as its high nibble then its low nibble |
| Actions.ToHex | src/actions/ai.ts:12-13 | the rendering is twice as long as the digest |
| Actions.ToHexDigits | src/actions/ai.ts:12-13 | byte i supplies the digits at positions 2i and 2i+1, in byte order |
| Actions.LowerCaseAlphabet | src/actions/ai.ts:13 | only the lower-case hex alphabet is used |
| Actions.HexValue | src/actions/ai.ts:13 | a digit's value gives the same digit back |
| Actions.HexRoundTrip | src/actions/ai.ts:12-13 | the bytes can be read back from the hex string, so distinct digests give distinct keys |
| Actions.HashLength | src/actions/ai.ts:9-14 | a 32-byte SHA-256 digest renders as 64 lower-case hex digits |
| Actions.HandlerReply | src/actions/ai.ts:60-62 | the reply is an object whose one field, `imageBase64` or `story`, holds the value |
| Actions.CacheKey | src/actions/ai.ts:55 | a key exists exactly when a cache is bound, and it is `image:` or `story:` followed by the hash |
| Actions.KvNamespace.Put | src/actions/ai.ts:80 | the value is stored under the key with its TTL; other keys are kept |
| Actions.Generate | src/actions/ai.ts:42-89 | the handler's reply object, `{ imageBase64 }` or `{ story }`, and its model calls are those of the specification, and the namespace changes only by the one write it makes |
| Actions.BindingCheckedFirst | src/actions/ai.ts:49-53 | a missing or unusable binding fails before any cache access or model call |
| Actions.CacheHitSkipsModel | src/actions/ai.ts:57-64 | a hit returns the cached value in the reply object, makes no model call and writes nothing |
| Actions.MissGeneratesThenCaches | src/actions/ai.ts:67-88 | a miss makes exactly one call; a result without `image`/`response` fails and caches nothing; otherwise that field is returned in the reply object and stored under the key with TTL 86400 when a cache is bound |
| Actions.WriteFailureKeepsResult | src/actions/ai.ts:78-84 | a failed cache write changes neither the result nor the calls |
| Actions.StoryReadFailureIsMiss | src/actions/ai.ts:110-119 | a failed story-cache read behaves like a miss on an empty cache |
| Actions.ImageReadFailurePropagates | src/actions/ai.ts:57-58 | a failed image-cache read is not caught: that error, and no model call |
| Actions.OrNull | src/actions/ai.ts:173-181 | `field ?? null`: an omitted field becomes `null`, a given one is kept |
| Actions.RunCreativeAgentAction | src/actions/ai.ts:157-187 | an empty instruction is refused, then a missing binding; otherwise the pipeline runs on the normalised input |
| Actions.NormalizationPreservesRun | src/actions/ai.ts:170-183 | forwarding `null` and `false` for omitted fields runs the pipeline exactly as the omitted fields would |
| Actions.FromStoryDependsOnFlag | src/actions/ai.ts:175 | the later stages see `generateImage` only through whether it is `true` |
| Http.Json | src/pages/api/ai-chat.ts:84-92 | the status and body given, with `application/json; charset=utf-8` and `no-store` |
| Http.JsonDefaultsToOk | src/pages/api/ai-chat.ts:84 | without a status, `json` answers 200 |
| AiChat.NameRoundTrip | src/pages/api/ai-chat.ts:54-65 | each passed parameter has its own field name |
| AiChat.ChatModelName | src/pages/api/ai-chat.ts:39-40 | `body.model` when it is a non-empty string, else the Llama default |
| AiChat.PayloadRules | src/pages/api/ai-chat.ts:45-65 | no payload exactly when there is neither a non-empty `messages` array nor a non-blank prompt; `messages` wins over the prompt; a parameter is copied unchanged exactly when it has its expected type |
| AiChat.PayloadShape | src/pages/api/ai-chat.ts:43-65 | a payload never holds both inputs and carries every copied parameter under its own name |
| AiChat.PassThrough | src/pages/api/ai-chat.ts:54-65 | one copy statement copies its parameter exactly when it is well typed |
| AiChat.AllCopied | src/pages/api/ai-chat.ts:54-65 | after all ten copy statements the copies are exactly the well-typed parameters |
| AiChat.PassSampling | src/pages/api/ai-chat.ts:54-58 | the first five copy statements |
| AiChat.PassPenalties | src/pages/api/ai-chat.ts:59-63 | the three penalty copies |
| AiChat.PassFlags | src/pages/api/ai-chat.ts:64-65 | the two boolean copies |
| AiChat.PassThroughAll | src/pages/api/ai-chat.ts:54-65 | the copied parameters are exactly the well-typed ones |
| AiChat.BuildPayload | src/pages/api/ai-chat.ts:43-65 | the in-place payload builder yields the specified payload |
| AiChat.PostChat | src/pages/api/ai-chat.ts:30-78 | the handler's answer equals the route specification |
| AiChat.NoBindingIs500 | src/pages/api/ai-chat.ts:32-35 | without a binding the answer is 500, whatever the request |
| AiChat.MissingInputIs400 | src/pages/api/ai-chat.ts:45-51 | neither input gives 400 with its message |
| AiChat.ResponseSelection | src/pages/api/ai-chat.ts:67-77 | with usable input: a thrown error is 500 with its message; a text result is `{model, response}`; any other result is `{model, result}` |
| AiChat.ChatStatuses | src/pages/api/ai-chat.ts:30-78 | every answer is 200, 400 or 500, and 400 means exactly missing input |
| GoogleChat.GoogleModelName | src/pages/api/google-chat.ts:33 | `body.model` when it is a non-empty string, else `gemini-1.5-flash` |
| GoogleChat.GatewayUrlDeterminesParts | src/pages/api/google-chat.ts:35-39 | with a slash-free, injective encoder the URL determines the account, the gateway and the model |
| GoogleChat.SafeText | src/pages/api/google-chat.ts:85-91 | the body text, or `""` when it cannot be read |
| GoogleChat.OptGet | src/pages/api/google-chat.ts:81 | `?.` on `null`/`undefined` gives undefined |
| GoogleChat.ExtractText | src/pages/api/google-chat.ts:80-83 | extracted text is trimmed |
| GoogleChat.MissingPartsGiveEmptyText | src/pages/api/google-chat.ts:81 | missing candidates, content or parts give `""` |
| GoogleChat.ExtractTextConcatenates | src/pages/api/google-chat.ts:80-83 | the text is the parts' `text` values, in order, `""` for a missing one, joined and trimmed |
| GoogleChat.ExtractTextFailures | src/pages/api/google-chat.ts:80-83 | `extractText` throws exactly for a null response, non-array `parts` or a null part |
| GoogleChat.MissingConfigIs500 | src/pages/api/google-chat.ts:14-26 | a missing gateway setting is 500 before the body is read |
| GoogleChat.PromptGuard | src/pages/api/google-chat.ts:28-55 | a missing or blank prompt is 400; otherwise the gateway URL is fetched with the token as API key |
| GoogleChat.UpstreamFailureIs502 | src/pages/api/google-chat.ts:57-60 | a non-ok upstream is 502 with its status and body text, `""` if unreadable |
| GoogleChat.UpstreamSuccess | src/pages/api/google-chat.ts:62-68 | an ok upstream is 200 with the model and the trimmed text, or 500 when its JSON or text fails |
| GoogleChat.GoogleStatuses | src/pages/api/google-chat.ts:10-69 | every answer is 200, 400, 500 or 502 |
| AiImage.ImageModelName | src/pages/api/ai-image.ts:20-21 | `body.model` when it is a non-empty string, else the flux model |
| AiImage.ImageGuards | src/pages/api/ai-image.ts:12-18 | no binding is 500 first; then a missing, non-string or blank prompt is 400, and 400 means exactly that |
| AiImage.ImageOutcome | src/pages/api/ai-image.ts:23-33 | the model gets `{prompt}`; an image result is 200 with `imageBase64`, the model and `image/png`; another result is 500 carrying it; an error is 500 |
| AiImage.UncallableBindingIs500 | src/pages/api/ai-image.ts:23 | a binding without a callable `run` ends in 500 |
| Tts.TtsError | src/pages/api/tts.ts:24-27 | an error answer is JSON `{error}` with only a JSON content type |
| Tts.BinaryStringCopiedExactly | src/pages/api/tts.ts:94-97 | a binary string is copied code for code, one byte per character |
| Tts.CopyBinaryString | src/pages/api/tts.ts:94-98 | the loop fills a fresh buffer equal to the byte copy of the string |
| Tts.SelectAudio | src/pages/api/tts.ts:80-110 | the branch reassignments give the specified buffer |
| Tts.AudioPriority | src/pages/api/tts.ts:82-110 | a raw buffer first, then a base64 `audio` string, then `array_buffer`, `arrayBuffer`, `data`; a failed decode leaves no audio |
| Tts.PostTts | src/pages/api/tts.ts:5-153 | the handler's answer equals the route specification |
| Tts.ValidationLadder | src/pages/api/tts.ts:9-64 | non-POST is 405 first; then missing text, text over 2000 and missing voice are 400s in that order; then no binding is 500; exactly 2000 characters pass |
| Tts.AudioOutcome | src/pages/api/tts.ts:112-136 | no source is 500 "Invalid response"; an empty buffer is 500 "No audio generated"; otherwise 200 with the bytes as `audio/mpeg`, `no-cache` |
| Tts.BindingFailureMessage | src/pages/api/tts.ts:137-144 | a binding error is 500 "AI service error: " plus its message |
| AgentHook.Update | src/components/demos/useCreativeAgent.ts:324-327 | the named list is replaced and every other group is kept |
| AgentHook.SameLists | src/components/demos/useCreativeAgent.ts:79 | a state is determined by its eight lists |
| AgentHook.KeyIndex | src/components/demos/useCreativeAgent.ts:225 | every group has its place in the key order |
| AgentHook.EmptyCustomOptions | src/components/demos/useCreativeAgent.ts:200-209 | every group's list is empty |
| AgentHook.AddBlankIsNoop | src/components/demos/useCreativeAgent.ts:307-311 | a blank value is returned unchanged and nothing is added |
| AgentHook.AddKnownIsNoop | src/components/demos/useCreativeAgent.ts:313-322 | a value matching a default or a custom entry, ignoring case, returns trimmed and changes nothing |
| AgentHook.AddNewPrepends | src/components/demos/useCreativeAgent.ts:317-330 | a new value is put trimmed at the front of its own group only |
| AgentHook.PrependKeepsDistinct | src/components/demos/useCreativeAgent.ts:320-327 | prepending an unmatched value keeps a list free of case duplicates |
| AgentHook.AddKeepsListsDistinct | src/components/demos/useCreativeAgent.ts:305-333 | adding never creates two entries that differ only in case, nor one matching a default |
| AgentHook.CustomOptionStore.constructor | src/components/demos/useCreativeAgent.ts:257 | the store starts from the loaded lists |
| AgentHook.CustomOptionStore.Add | src/components/demos/useCreativeAgent.ts:305-333 | the value shown and the new lists are those of `addCustomOption` |
| AgentHook.StringItemsAppend | src/components/demos/useCreativeAgent.ts:228 | the filter keeps exactly the strings, in order |
| AgentHook.StringItemsMembers | src/components/demos/useCreativeAgent.ts:228 | a string is kept exactly when it is an element |
| AgentHook.LoadedOptions | src/components/demos/useCreativeAgent.ts:225-230 | each group holds the string elements of its stored array, and a non-array gives `[]` |
| AgentHook.InitialOptionsShape | src/components/demos/useCreativeAgent.ts:211-237 | a missing entry or failed parse gives empty lists; otherwise each group's strings in order |
| AgentHook.KeyAtIndex | src/components/demos/useCreativeAgent.ts:225 | each group appears once in the key order |
| AgentHook.LoadParsed | src/components/demos/useCreativeAgent.ts:223-232 | the loop over the keys builds the loaded lists |
| AgentHook.LoadInitialCustomOptions | src/components/demos/useCreativeAgent.ts:211-237 | the method equals the loading specification |
| AgentHook.StatusMessageMark | src/components/demos/useCreativeAgent.ts:335-348 | only `idle` has an empty message |
| AgentHook.StatusMessagesDistinct | src/components/demos/useCreativeAgent.ts:335-348 | `""` exactly for idle, and each stage has its own message |
| AgentHook.CombinedIsDefaultsThenCustom | src/components/demos/useCreativeAgent.ts:355-358 | the candidates are the defaults followed by the custom entries |
| AgentHook.GenerateGuard | src/components/demos/useCreativeAgent.ts:389-394 | a blank instruction stops before any call; otherwise the untrimmed instruction is sent |
| AgentHook.GenerateSettles | src/components/demos/useCreativeAgent.ts:415-430 | a run ends with either a non-empty error or a result, never both; the result is kept only with no error and truthy data |
| AgentHook.SpeakGuard | src/components/demos/useCreativeAgent.ts:571-581 | speech is requested only for trimmed text of 1 to 2000 characters, and that text is sent |
| AgentHook.AudioGuard | src/components/demos/useCreativeAgent.ts:522-530 | a file is sent exactly when its type starts with `audio/` and it is at most 20 MiB; the type check comes first |
| AgentHook.TranscriptGuard | src/components/demos/useCreativeAgent.ts:552-556 | a transcript is accepted only when non-blank, and then trimmed |
| VideoJob.ClampDuration | src/components/demos/useCreativeAgent.ts:632 | the duration is at most 60, and unchanged when already within it |
| VideoJob.SubmitRequest | src/components/demos/useCreativeAgent.ts:647-651 | the submission carries the prompt and the clamped duration |
| VideoJob.Cancelled | src/components/demos/useCreativeAgent.ts:623-628 | cancelling sets idle, "Video generation cancelled." and not generating, and keeps url and error |
| VideoJob.KeepsPollingAnyView | src/components/demos/useCreativeAgent.ts:689-708 | the loop breaks exactly on done, error or failed, or on a failed poll; any other status sets processing and "Video is rendering..." |
| VideoJob.FinalReplies | src/components/demos/useCreativeAgent.ts:691-714 | a loop that stops leaves done with "Video ready to play." or an error with a message |
| VideoJob.CancelOverwrittenAsWritten | src/components/demos/useCreativeAgent.ts:670-716 | as written, a cancel during the wait is overwritten by that turn's reply |
| VideoJob.CancelOverwrittenExample | src/components/demos/useCreativeAgent.ts:670-708 | one cancelled turn answered "processing" ends showing "Video is rendering..." |
| VideoJob.CancelIsFinal | src/components/demos/useCreativeAgent.ts:617-628 | with the flag tested after the wait, a cancel the loop reaches leaves idle, cancelled and not generating |
| VideoJob.NoCancelSameLoop | src/components/demos/useCreativeAgent.ts:670-716 | without a cancel the intended loop is the loop as written |
| VideoJob.QueuedView | src/components/demos/useCreativeAgent.ts:640-644 | before submitting: queued, "Submitting generation job...", generating, url and error cleared |
| VideoJob.RenderingWhileKeptPolling | src/components/demos/useCreativeAgent.ts:670-708 | uncancelled turns that all answer "still going" leave "Video is rendering..." |
| VideoJob.SubmitCancelOverwrittenAsWritten | src/components/demos/useCreativeAgent.ts:646-668 | as written, a cancel while the submission is pending is lost: a returned job id still starts polling, and its replies overwrite the cancelled view |
| VideoJob.SubmitCancelIsFinal | src/components/demos/useCreativeAgent.ts:617-628 | with the cancel honoured, no polling starts and the view stays idle, cancelled and not generating |
| VideoJob.NoCancelSameHandler | src/components/demos/useCreativeAgent.ts:630-725 | without any cancel the intended handler is the handler as written |
| VideoJob.GenerateVideoOutcomes | src/components/demos/useCreativeAgent.ts:630-725 | a blank prompt sets only the error; a cancel during submission leaves the cancelled view; a failed start ends in a non-empty error; no run leaves generation on |
| VideoJob.JobController.constructor | src/components/demos/useCreativeAgent.ts:665 | a new controller is not cancelled |
| VideoJob.VideoSession.constructor | src/components/demos/useCreativeAgent.ts:270-280 | the initial video state and no job |
| VideoJob.VideoSession.SetView | src/components/demos/useCreativeAgent.ts:273-277 | the five state setters |
| VideoJob.VideoSession.Cancel | src/components/demos/useCreativeAgent.ts:617-628 | the current job is marked cancelled and the view becomes the cancelled view |
| VideoJob.VideoSession.Poll | src/components/demos/useCreativeAgent.ts:670-716 | the polling loop, flag tested after each wait, yields the intended view |
| VideoJob.VideoSession.Submit | src/components/demos/useCreativeAgent.ts:640-668 | submission up to polling: the queued view, the start errors, a cancel while pending, and whether polling starts |
| VideoJob.VideoSession.Generate | src/components/demos/useCreativeAgent.ts:630-725 | the handler, with a possible cancel during submission, ends in the intended view, and a replaced job was cancelled |
| VideoJob.VideoSession.Run | src/components/demos/useCreativeAgent.ts:646-725 | submission, a fresh controller and polling end in the specified view |
| Experiences.Insert | src/server/data.ts:6-8 | an insertion adds one entry |
| Experiences.SortByYear | src/server/data.ts:6-8 | the sort keeps the length |
| Experiences.InsertPermutes | src/server/data.ts:6-8 | an insertion adds exactly its entry to the multiset |
| Experiences.InsertKeepsOrder | src/server/data.ts:6-8 | an insertion into a latest-first list stays latest-first |
| Experiences.InsertOfYear | src/server/data.ts:6-8 | an entry lands behind every entry of its own year |
| Experiences.SortByYearSortsAndPermutes | src/server/data.ts:6-8 | the result is latest year first and a permutation of the input |
| Experiences.SortByYearIsStable | src/server/data.ts:6-8 | the entries of each year keep their collection order |
| Experiences.InsertAt | src/server/data.ts:6-8 | where the inner loop stops is where the insertion puts the entry |
| Experiences.SortEntries | src/server/data.ts:6-8 | the in-place sort leaves the stable latest-first order of the input |
| Experiences.InsertEntry | src/server/data.ts:6-8 | the inner loop inserts one entry into the sorted prefix and leaves the rest |
| Experiences.DataOf | src/server/data.ts:9 | element i is the `data` of entry i |
| Experiences.GetExperiences | src/server/data.ts:4-10 | the entries are sorted in place and their `data` returned in that order |
| Experiences.ExperiencesOrdered | src/server/data.ts:6-9 | one item per entry, years non-increasing, the same multiset, each year's items in collection order |
| Middleware.RobotsValue | src/middleware.ts:14-20 | `noindex, nofollow` exactly for previews, `all` otherwise |
| Middleware.IndexedExactlyInProduction | src/middleware.ts:6-10 | indexing is allowed only for a production build of `main`, of `production` or outside Pages |
| Middleware.Response.SetHeader | src/middleware.ts:16 | the header is set and the others kept |
| Middleware.OnRequest | src/middleware.ts:3-23 | the response from `next()` gets the robots header and is itself returned |
| MenuModel.ToggleRule | src/components/menu/Menu.tsx:25-35 | desktop always opens the clicked section; mobile closes it exactly when it was open |
| MenuModel.MobileToggleTwice | src/components/menu/Menu.tsx:32-33 | on mobile two toggles of a section return to the start |
| MenuModel.SplitSlash | src/components/menu/Menu.tsx:72 | the pieces hold no `/` and there is at least one |
| MenuModel.SplitJoinRoundTrip | src/components/menu/Menu.tsx:72 | joining the pieces with `/` gives the path back |
| MenuModel.NonEmpty | src/components/menu/Menu.tsx:72 | `filter(Boolean)` keeps only non-empty pieces |
| MenuModel.Segments | src/components/menu/Menu.tsx:72 | segments are non-empty and slash-free |
| MenuModel.FindByHref | src/components/menu/Menu.tsx:76 | nothing is found exactly when no section has that href |
| MenuModel.FindByHrefFirst | src/components/menu/Menu.tsx:76 | the label found is that of the first matching section |
| MenuModel.PathEffectNeverOpens | src/components/menu/Menu.tsx:69-82 | as written, the effect sees the first render's `false` and never changes the open section |
| MenuModel.PathEffectExample | src/components/menu/Menu.tsx:69-82 | at `/a` on desktop, with a section for `/a`, the home section stays open |
| MenuModel.MenuState.constructor | src/components/menu/Menu.tsx:21-22 | mobile, and nothing open |
| MenuModel.MenuState.Toggle | src/components/menu/Menu.tsx:25-35 | the open section follows the toggle rule |
| MenuModel.MenuState.Resize | src/components/menu/Menu.tsx:39-46 | entering desktop with nothing open opens `fysp.dev` |
| MenuModel.MenuState.PressOutside | src/components/menu/Menu.tsx:51-60 | on mobile a press outside closes the menu |
| MenuModel.MenuState.OpenForPath | src/components/menu/Menu.tsx:69-82 | as intended, the current viewport decides and the path's section opens |
| MenuModel.FirstMountAsWritten | src/components/menu/Menu.tsx:21-82 | as written, the first mount leaves the home section open on desktop and nothing on mobile, whatever the path |
| MenuModel.FirstMount | src/components/menu/Menu.tsx:21-82 | as intended, the first mount on desktop opens the path's section when one matches and the home section otherwise |
| MenuModel.IntendedPathEffect | src/components/menu/Menu.tsx:74-81 | on desktop the first matching section opens; with no segment or no match nothing changes |
| ThemeToggle.InitialChain | src/components/theme/ThemeToggleButton.tsx:11-22 | a stored theme wins; otherwise `dark` exactly when the system or the document is dark |
| ThemeToggle.FallbackTheme | src/components/theme/ThemeToggleButton.tsx:23-27 | after a throw the document class alone decides |
| ThemeToggle.ToggleTwice | src/components/theme/ThemeToggleButton.tsx:40-42 | `light` and `dark` swap and come back after two clicks; anything else becomes `light` |
| ThemeToggle.ThemeButton.constructor | src/components/theme/ThemeToggleButton.tsx:6 | the theme starts `null` and nothing is rendered |
| ThemeToggle.ThemeButton.ApplyTheme | src/components/theme/ThemeToggleButton.tsx:30-38 | the class is present exactly for `dark`, and storage holds `dark` or `light` |
| ThemeToggle.ThemeButton.Mount | src/components/theme/ThemeToggleButton.tsx:8-38 | mounting sets the initial or fallback theme, renders and syncs |
| ThemeToggle.ThemeButton.Click | src/components/theme/ThemeToggleButton.tsx:40-42 | a click toggles the theme and the effect syncs it |
| UiThemeToggle.Flipped | src/components/ui/ThemeToggleButton.tsx:27-29 | the two themes swap |
| UiThemeToggle.FlipTwice | src/components/ui/ThemeToggleButton.tsx:27-29 | flipping twice changes nothing |
| UiThemeToggle.ThemeButton.constructor | src/components/ui/ThemeToggleButton.tsx:8 | the theme starts `light` |
| UiThemeToggle.ThemeButton.ApplyTheme | src/components/ui/ThemeToggleButton.tsx:17-25 | the class is present exactly for `dark`, and storage equals the theme |
| UiThemeToggle.ThemeButton.Mount | src/components/ui/ThemeToggleButton.tsx:11-25 | the theme is `dark` exactly when the class was there, and the effect syncs |
| UiThemeToggle.ThemeButton.Click | src/components/ui/ThemeToggleButton.tsx:27-29 | a click flips the theme and the effect syncs it |
| Text.TrimEmptyIffBlank | src/lib/langchain/creativeAgent.ts:273 | `trim()` is empty exactly for all-whitespace input |
| Text.TrimResultIsTrimmed | src/lib/langchain/creativeAgent.ts:273 | a trimmed string has no whitespace at either edge |
| Text.TrimIdempotent | src/lib/langchain/creativeAgent.ts:273 | trimming twice is trimming once |
| Text.ToLower | src/components/demos/useCreativeAgent.ts:313 | `toLowerCase` keeps the length and lowers each letter |
| Js.Get | src/pages/api/ai-chat.ts:40 | a missing property reads as undefined |
| Js.RaisedMessage | src/components/demos/useCreativeAgent.ts:415-426 | `new Error(raw \|\| fallback).message \|\| outer` is the raw text, else the fallback, and never empty |
| Js.JoinStrings | src/pages/api/google-chat.ts:82 | `join("")` of strings is their concatenation |

## Left out

- Real async interleaving: the queue is drained sequentially. A busy `enqueue` is shown as a pending promise, not as a later resolution.
- Timers are not modelled: backoff delays are recorded numbers and are never slept; the 2 s video poll interval and the `statusMessage` stage timers are left out.
- LangChain internals: `ChatPromptTemplate`, `.pipe` and `StringOutputParser` are left out. A template's messages are its system text and its human text, with the placeholders filled in.
- Not modelled, only passed in as parameters: SHA-256 (`crypto.subtle.digest`), `TextEncoder`, `atob`, `encodeURIComponent`, `JSON.parse`, `request.json()` and `fetch`.
- `JSON.stringify` is not modelled: bodies stay `JsValue`s.
- Randomness is left out: `createRandomPrompt` and `randomPick` draw from `Math.random`. Only the candidate list of `combined` is modelled.
- I/O is not modelled: `console.*`, `FormData`, `Blob`, `URL.createObjectURL`/`revokeObjectURL`, and the `localStorage` write of the custom options.
- The `options` memo is left out.
- The unmount clean-up is left out.
- `handleFeelingLucky` is left out: it only sequences the random-prompt action into `handleGenerate`.
- Numbers are integers: JavaScript floats, `NaN` and `parseInt` are not modelled.
- String lengths count Unicode scalar values, not UTF-16 code units, so a text with astral characters can differ from `text.length` at the 2000 limit.
- `toLowerCase` is ASCII only, and `trim` uses ECMAScript's white space and line terminator sets.
- Engine error texts: the TypeError messages for a `null` body use a fixed text. An `Error`'s `message` is modelled as the string it was made from.
- Header names are kept exactly: the case-insensitive matching of `Headers` is not modelled.
- Render-only components, the three.js scene, the SDK wrappers under `src/pages/api/ai/`, the recruiter page, the static data files, build configuration and scripts are not part of this model.
- RetryPolicy.RetryWithBackoff: the `lastError || new Error(...)` after the loop is left out, because it cannot be reached with three attempts.
- RetryPolicy.RetryWithBackoff: a non-`Error` throw is modelled by its message only.
- Adapter.RunOnce: one `AiWithoutRun` case stands for both an `AI` entry with no `run` property and one whose `run` is not a function.
- Tts.PostTts (and its specification Tts.TtsPost): an `AI` object whose `run` is present but not callable passes the check at line 53, and the source then answers 500 "AI service error: ..." from the TypeError. The model gives the "binding not found" 500 instead. Both are 500.
- AgentHook.TranscriptGuard: a `text` field that is neither a string nor missing makes `trim` throw in the source. The model treats it as an empty transcript, so the error message differs. Both end in a transcription error.
- AgentHook.SpeakCheck: the `instruction` fallback of `text ?? ttsText ?? instruction` is dropped, because `ttsText` is always a string.
- VideoJob.VideoSession.Generate: `videoDuration` is an integer, so a `NaN` from `parseInt` is not modelled.
- VideoJob.VideoSession.Generate: the poll replies are scripted events, so the `?id=` URL built with `encodeURIComponent` is not modelled.
- ThemeToggle.ThemeButton.Mount: only a throw from the initial storage read is modelled. Storage failures inside the theme effect are not.
- ThemeToggle.ThemeButton.Mount: a missing `window.matchMedia` counts as not preferring dark.
- MenuModel.MenuState: listener registration and its re-registration on `openSection` are not modelled; each event is a method call. At most one section is open, because `openSection` is a single `Option`.

## Findings

| source | as written | input that shows it | evidently intended | confidence | as-written member | corrected member |
|---|---|---|---|---|---|---|
| src/components/demos/useCreativeAgent.ts:670-716 | `while (!jobController.cancelled)` tests the flag only before the 2 s wait. A cancel during the wait is followed by the status fetch, and its reply overwrites the cancelled view. | One polling turn. The user cancels during the wait, and the reply is `{ status: "processing" }`. The view ends as "Video is rendering...", not "Video generation cancelled." | a cancel ends polling and leaves the cancelled view | high, not executed | VideoJob.CancelOverwrittenAsWritten | VideoJob.CancelIsFinal |
| src/components/demos/useCreativeAgent.ts:646-668 | A cancel while the submission `fetch` is pending marks only the previous controller, or none. When the reply brings a job id, a fresh uncancelled controller replaces it, "Job queued. Polling status..." is shown and polling runs. | The user cancels while the submission is pending. The reply is `{ jobId: "j" }` and the first status reply is `{ status: "processing" }`. The view ends as "Video is rendering...", not "Video generation cancelled." | a cancel during submission ends the handler with the cancelled view | high, not executed | VideoJob.SubmitCancelOverwrittenAsWritten | VideoJob.SubmitCancelIsFinal |
| src/components/menu/Menu.tsx:69-82 | The path effect has no dependencies. It runs once, with the first render's `isDesktop`, which is always `false`, and returns at its guard. | A desktop viewport at `/a`, with a section whose `href` is `/a`. The home section `fysp.dev` stays open, not section `a`. | on desktop, open the section of the first path segment | high, not executed | MenuModel.FirstMountAsWritten | MenuModel.FirstMount |
