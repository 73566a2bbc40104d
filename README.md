# workflower, modelled in Dafny

workflower turns a short brief into a song. A workflow record goes through these statuses:

- `processing`: a chat model writes lyrics, infers generation settings (style, vocal type, …), adds bracket instructions to the lyrics and, for premium records, proposes a persona and an inspiration;
- `awaiting_review`: a human edits the lyrics and settings in a web form, then approves or rejects;
- `approved`, then `generating`: the approved request goes to a Suno-compatible generation service, which is polled until the clip is ready (`completed`);
- any step can instead end in `failed`, with the step's name in the error, and a review can end in `rejected`.

Records live in an in-memory store keyed by id. A Telegram bot can start workflows and report their status.

This project models that core and proves what it promises:

| file | module | models |
|---|---|---|
| `base.dfy` | `Base` | `Option`, `Result`, times, opaque 64-bit floats |
| `text.dfy` | `Text` | the Go string functions the core relies on: `TrimSpace`, `HasPrefix`, `Index`, the first field of `Fields`, `ToLower`, `TrimRight(s, "/")`, `FormatInt` |
| `storage.dfy` | `Storage` | the records and the store (a class over a `map`) |
| `extract.dfy` | `Extract` | the brace-depth JSON extractor, both as written and corrected |
| `suno.dfy` | `Suno` | the `Get` URL and the bounded polling loop `WaitForCompletion` |
| `workflow.dfy` | `Workflow` | the engine: the pre-review steps, approval, rejection, submission and polling |
| `telegram.dfy` | `Telegram` | the webhook secret check and the choice of message in an update |
| `handlers.dfy` | `Handlers` | command parsing, webhook path and status, update dispatch, the Telegram replies that use the store, and the review form |

The outside world appears as parameters:

- the chat model is a function `(system prompt, user prompt) -> Result<string>`;
- JSON decoding is a function `string -> Option<T>`;
- the generation call is a function from the request to `Result<seq<AudioInfo>>`;
- what poll `i` observes is a function `nat -> PollOutcome`;
- the clock is a `now: Time` argument, one per engine call;
- new ids are arguments.

Each stage the source runs on a goroutine is a separate method, and a caller chains them: `StartWorkflow`, `RunWorkflowSteps`, `ApproveWorkflow`, `SubmitToSuno`, `PollSunoCompletion`.

The source's brace extractor also counts a `}` that appears before the first `{`. The engine in this model runs that scan as written (`Extract.SourceObjectSpan`, `Extract.SourceExtractObject`), and its contracts say what that scan guarantees on every reply and, when no `}` precedes the first `{`, that it finds the first balanced object. `Extract.ObjectSpan` is the corrected scan the authors evidently intended; Findings shows an input on which the two differ, and `Extract.SourceObjectSpanAgrees` shows that they agree on every other reply.

## Model

| member | source | states |
|---|---|---|
| Text.TrimSpace | handlers/handlers.go:440 | the result has no white space at either end, and is an infix of the input with only white space before and after it |
| Text.TrimBothEnds | handlers/handlers.go:440 | cutting the leading, then the trailing white space leaves an infix with only white space around it |
| Text.TrimSpaceIdempotent | handlers/handlers.go:454 | trimming trimmed text changes nothing |
| Text.TrimSpaceDropsLeading | handlers/handlers.go:454 | white space in front of text does not change what it trims to |
| Text.FieldEnd | handlers/handlers.go:448-449 | the first field ends at the first white space: every earlier character is not white space, and the character at the end index is |
| Text.FieldEndOfWord | handlers/handlers.go:448-449 | a word with no white space, followed by nothing or by white space, is exactly the first field |
| Text.IndexOf | handlers/handlers.go:450 | `-1` exactly when the character is absent; otherwise the first position that holds it |
| Text.ToLower | handlers/handlers.go:455 | same length; every character is mapped through the ASCII lowering; no upper-case letter is left |
| Text.ToLowerOfLower | handlers/handlers.go:455 | text without upper-case letters is its own lower case |
| Text.TrimTrailingSlashes | handlers/handlers.go:309 | the result is a prefix of the input, does not end in `/`, and only slashes were dropped |
| Text.FormatNat | handlers/handlers.go:303 | a non-empty string of decimal digits with no leading zero, whose decimal value is the number |
| Text.FormatInt | handlers/handlers.go:303 | starts with `-` exactly for negative numbers; the digits that follow denote the number's magnitude |
| Text.FormatIntInjective | handlers/handlers.go:303 | different numbers print as different strings |
| Storage.Store.constructor | storage/storage.go:59-63 | the store starts empty |
| Storage.Store.Save | storage/storage.go:66-71 | stamps `updatedAt` with `now`; the entry for the record's id becomes the stamped record; no other entry changes; every record stays filed under its own id |
| Storage.Store.Get | storage/storage.go:74-79 | found exactly when the id is stored, and then it is the stored record, whose id is the one asked for |
| Storage.Store.Delete | storage/storage.go:82-86 | removes exactly that id, if present |
| Storage.Store.List | storage/storage.go:89-98 | one element per stored key: as many elements as entries, distinct keys, every key present, each element the record of its key; the records returned are exactly the stored records |
| Storage.Store.ListByStatus | storage/storage.go:101-112 | exactly the stored records with the given status, each under a distinct key, so each once |
| Extract.ObjectSpanSpec | workflow/workflow.go:282-299 | the corrected scan returns the first balanced object: it starts at the first `{`, its depth stays positive inside and is zero at its end; it returns nothing only when the first `{` is never closed or there is none |
| Extract.ScanSpec | workflow/workflow.go:286-299 | the same for the scan resumed at any index, from a loop state that means what the loop variables say |
| Extract.FirstObjectUnique | workflow/workflow.go:282-299 | a response has at most one first balanced object |
| Extract.FirstObjectFound | workflow/workflow.go:282-299 | whenever a first balanced object exists, the corrected scan returns it |
| Extract.ObjectShape | workflow/workflow.go:301-302 | the extracted text starts with `{`, ends with `}` and holds as many `{` as `}` |
| Extract.WholeObject | workflow/workflow.go:282-299 | a response that is exactly one balanced object is extracted whole |
| Extract.ExtractAgain | workflow/workflow.go:282-299 | extraction is idempotent: extracting from the extracted text returns all of it |
| Extract.Extracted | workflow/workflow.go:301-307 | an error is always `no valid JSON found in response`; a value is the decoding of the first balanced object; and when that object exists and decodes, its decoding is the result |
| Extract.ExtractedWhole | workflow/workflow.go:301-307 | for a response that is one object, extraction is plain decoding |
| Extract.ExtractObject | workflow/workflow.go:278-308 | the loop with `start`, `end` and the depth count returns what `Extracted` specifies |
| Extract.StrayCloseBreaksSpan | workflow/workflow.go:292-297 | the scan as written hands the unbalanced `{{}` of `}{{}}` to the decoder and finds nothing in `} {}`; the corrected scan finds `{{}}` and `{}` |
| Extract.SourceScanShape | workflow/workflow.go:286-299 | whatever the scan as written returns runs from the first `{` to a `}` |
| Extract.SourceExtracted | workflow/workflow.go:278-308 | the extractor as written: an error is always `no valid JSON found in response`; a value is the decoding of a span from the first `{` to a `}`; on a response without a `}` before the first `{` the result is the corrected extractor's |
| Extract.SourceExtractObject | workflow/workflow.go:278-308 | the loop as written, decrementing the count on every `}`, returns what `SourceExtracted` specifies |
| Extract.SourceObjectSpanAgrees | workflow/workflow.go:286-299 | when no `}` comes before the first `{`, the scan as written and the corrected scan agree |
| Suno.GetQuery | lib/suno/client.go:187-197 | the query is `?ids=…` when ids are given, then `&page=N` or `?page=N` when the page is positive, and nothing else |
| Suno.GetUrl | lib/suno/client.go:185-197 | the URL built by successive appends is the `/api/get` endpoint followed by exactly the parameters of `GetParams` |
| Suno.WaitFrom | lib/suno/client.go:360-384 | the number of `Get` calls never exceeds the retry limit |
| Suno.WaitFirstSettled | lib/suno/client.go:360-379 | the first poll that is not pending decides the result: a cancelled context, a `Get` error, an empty reply or a ready clip |
| Suno.WaitExhausted | lib/suno/client.go:360-384 | when every poll up to the limit is pending, the wait fails with `max retries exceeded` after exactly `maxRetries` calls |
| Suno.WaitReadyIsFirst | lib/suno/client.go:376-379 | a successful wait returns the first clip of the first ready reply; that clip is `streaming` or `complete`; every earlier poll was pending |
| Suno.NoRetriesNoPolls | lib/suno/client.go:360 | with a limit of zero or less, the wait fails at once without a `Get` |
| Suno.WaitForCompletion | lib/suno/client.go:359-385 | the loop's result and its number of `Get` calls are those of `WaitFrom` |
| Workflow.TruncateString | workflow/workflow.go:271-276 | short text is returned unchanged; longer text becomes its first `maxLen` bytes followed by `...`, `maxLen + 3` bytes in all |
| Workflow.TruncateIdempotent | workflow/workflow.go:271-276 | truncating again gives the same result |
| Workflow.Parsed | workflow/workflow.go:127-141 | a chat error is passed on unchanged; a reply that decodes as a whole wins; otherwise a value is the decoding of a span from the first `{` to a `}`, and, when no `}` precedes the first `{`, of the first balanced object, which is decoded whenever it can be; failing both, the error is `failed to parse <what>: no valid JSON found in response` |
| Workflow.ParsedAfterPreamble | workflow/workflow.go:132-139 | a reply made of brace-free prose, one balanced object and any tail, that does not decode as a whole, yields the object's decoding |
| Workflow.ParseReply | workflow/workflow.go:132-141 | the imperative decoding path, with the extractor loop as written, returns what `Parsed` specifies |
| Workflow.DetermineSunoProperties | workflow/workflow.go:124-142 | one chat call with the properties system prompt on the brief and the lyrics, decoded as `Parsed` specifies |
| Workflow.GeneratePersonaInspo | workflow/workflow.go:153-172 | one chat call with the persona system prompt on the brief, style and vocal type, decoded as `Parsed` specifies |
| Workflow.Failed | workflow/workflow.go:262-265 | status `failed` and the error `<step> failed: <err>`; every other field as it was |
| Workflow.PreReviewOutcome | workflow/workflow.go:64-105 | the stage ends in `failed` or `awaiting_review` |
| Workflow.PreReviewSteps | workflow/workflow.go:67-99 | the steps run in the order lyrics, properties, brackets, persona; at least one runs; at most four run for premium records and three for others |
| Workflow.PreReviewEarlierSucceeded | workflow/workflow.go:67-99 | a step runs only after every earlier step succeeded: its chat call returned and, for the properties step, the reply decoded |
| Workflow.PreReviewInputs | workflow/workflow.go:68-76 | the first step runs on the brief, the second on the brief and the generated lyrics |
| Workflow.PreReviewFields | workflow/workflow.go:64-105 | the stage writes only its own fields: lyrics, settings, bracketed lyrics, persona, the edited copies, status and error |
| Workflow.PreReviewSuccess | workflow/workflow.go:64-105 | reaching review means every step ran and succeeded (chat call and decoding), the persona step exactly for premium records; the lyrics and bracketed lyrics are the chat replies; the edited copies equal the generated values |
| Workflow.PreReviewFailure | workflow/workflow.go:64-99 | a failure is recorded against the last step that ran: that step failed, the error is its name, ` failed: ` and the step's own error (the chat error, or the decoding error for the properties and persona steps), its output field is cleared, later steps' fields are untouched |
| Workflow.BasicReviewHasNoPersona | workflow/workflow.go:92-99 | a new non-premium record reaches review without a persona |
| Workflow.StartWorkflow | workflow/workflow.go:43-58 | a new record in `processing`, holding only the brief, the premium flag and the audio fields, is saved under its id |
| Workflow.HandleError | workflow/workflow.go:262-267 | saves the record as `failed` with `<step> failed: <err>` |
| Workflow.RunWorkflowSteps | workflow/workflow.go:64-105 | the saved final record and the chat calls made are those of `PreReview`; only that record's entry changes |
| Workflow.ApproveWorkflow | workflow/workflow.go:175-183 | status `approved` whatever it was before, saved |
| Workflow.RejectWorkflow | workflow/workflow.go:256-259 | status `rejected` whatever it was before, saved |
| Workflow.Tags | workflow/workflow.go:201-204 | the style, followed by `, ` and the vocal type exactly when the vocal type is not empty |
| Workflow.BuildRequest | workflow/workflow.go:187-213 | the prompt is the edited lyrics, or the bracketed lyrics when those are empty; the settings are the edited ones, else the generated ones; the title is the brief when it has at most 50 bytes, else its first 50 bytes followed by `...`; not instrumental; no waiting; no negative tags; no model |
| Workflow.RequestIgnoresPersonaAndAudio | workflow/workflow.go:207-213 | the persona, inspiration and uploaded audio never reach the request |
| Workflow.AfterSubmit | workflow/workflow.go:215-231 | `generating` with the first clip's id exactly when the reply holds a clip; otherwise `failed` with `suno submission failed: ` and the error, or `no results returned from Suno` |
| Workflow.SubmitToSuno | workflow/workflow.go:186-232 | sends exactly `BuildRequest` once; the saved record is the one `AfterSubmit` gives for the reply |
| Workflow.AfterPoll | workflow/workflow.go:237-245 | `completed`, with the clip's status as the result, exactly when the wait succeeded; otherwise `failed` with `suno completion failed: ` and the wait's error |
| Workflow.PollSunoCompletion | workflow/workflow.go:235-245 | waits with at most 60 polls and saves the record `AfterPoll` gives |
| Workflow.CompletedResultIsReady | workflow/workflow.go:237-244 | a completed record's result is `streaming` or `complete` |
| Telegram.NoMismatchesIffEqual | lib/telegram/webhook.go:69 | strings of one length are equal exactly when they differ at no position |
| Telegram.ConstantTimeCompare | lib/telegram/webhook.go:69 | 1 for equal contents, 0 otherwise |
| Telegram.VerifyWebhookSecret | lib/telegram/webhook.go:58-70 | accepts everything when the trimmed secret is empty; otherwise accepts exactly a header equal to the trimmed secret |
| Telegram.VerifyRejects | lib/telegram/webhook.go:64-67 | with a secret configured, a missing header, a header of another length and an untrimmed header are refused |
| Telegram.ExtractMessage | lib/telegram/webhook.go:73-87 | nothing for no update; the message, else the edited message, else the callback query's message |
| Telegram.FirstPresent | lib/telegram/webhook.go:77-86 | the first present entry of a list of optional messages, and nothing only when none is present |
| Telegram.ExtractFirstCandidate | lib/telegram/webhook.go:77-86 | the message chosen is the first present one among message, edited message, callback message |
| Handlers.NormalizeWebhookPath | handlers/handlers.go:428-437 | blank gives `/telegram/webhook`; a trimmed path starting with `/` is returned as it is; any other trimmed path gets a `/` in front; the result always starts with `/` |
| Handlers.NormalizeIdempotent | handlers/handlers.go:428-437 | normalising twice is normalising once |
| Handlers.CommandWord | handlers/handlers.go:448-452 | a non-empty prefix of the first field that starts with `/` and holds no `@` |
| Handlers.SlashCommand | handlers/handlers.go:448-455 | a non-empty lower-case command starting with `/`, and trimmed arguments |
| Handlers.ParseTelegramCommand | handlers/handlers.go:439-456 | blank text gives two empty strings; text not starting with `/` is all arguments; slash text gives a lower-case command starting with `/` and trimmed arguments |
| Handlers.SlashCommandOf | handlers/handlers.go:448-455 | slash text made of a command, a mention and a rest starting with white space gives the command in lower case and the trimmed rest |
| Handlers.CommandRoundTrip | handlers/handlers.go:439-456 | a command, an optional `@bot` mention and trimmed arguments, joined by one space, parse back into the command in lower case and the arguments |
| Handlers.ParsePremiumExample | handlers/handlers.go:448-455 | `/premium@bot a song about rain` parses into `/premium` and `a song about rain` |
| Handlers.ParseMixedCaseExample | handlers/handlers.go:448-455 | `/Status@Bot abc` parses into `/status` and `abc` |
| Handlers.WebhookStatus | handlers/handlers.go:265-284 | 503 exactly without a bot token; 401 exactly for a bad secret with a token; 400 exactly for a body that is not an update past both checks; 200 exactly when all checks pass |
| Handlers.MessageText | handlers/handlers.go:295-298 | the trimmed text, else the trimmed caption |
| Handlers.Command | handlers/handlers.go:311-342 | every branch of the switch answers the message's chat; an empty command starts a workflow on the arguments in the default mode |
| Handlers.CommandCases | handlers/handlers.go:311-340 | for a non-empty command: only `/premium` and `/basic` start a workflow, in their own mode and on non-blank arguments; only `/status` looks one up; unknown commands get the pointer to `/help`; conversely `/start` and `/help` get the help text, and `/status`, `/premium`, `/basic` get their usage line on blank arguments and their lookup or start otherwise |
| Handlers.HandleTelegramUpdate | handlers/handlers.go:286-343 | an update is ignored exactly when it has no message, comes from a bot, has blank text and caption, or comes from another chat than the configured one |
| Handlers.AcceptedDispatch | handlers/handlers.go:303-342 | an accepted update gets the switch's action on its parsed text, in its own chat, with the base URL stripped of trailing slashes |
| Handlers.ActionAnswersSender | handlers/handlers.go:303-342 | every action goes to the chat the message came from |
| Handlers.PlainTextStartsWorkflow | handlers/handlers.go:336-341 | text that is not a command starts a workflow on that text, in the configured default mode |
| Handlers.SlashTextIsCommand | handlers/handlers.go:311-340 | slash text never starts a workflow in the default mode |
| Handlers.PremiumCommandExample | handlers/handlers.go:322-327 | `/premium@bot a song about rain` starts a premium workflow on `a song about rain` |
| Handlers.StartWorkflowFromTelegram | handlers/handlers.go:345-362 | a blank task is refused and nothing is stored; otherwise a `processing` record with the trimmed task and no audio is stored, and the reply names it |
| Handlers.StatusText | handlers/handlers.go:377-382 | the status and link; exactly while the record awaits review, followed by `\nReview: <base>/review/<id>` and otherwise by nothing |
| Handlers.ReplyTelegramStatus | handlers/handlers.go:364-385 | usage for a blank id, `Workflow not found.` for an unknown one, else the record's status text; the store is not changed |
| Handlers.ReviewOutcome | handlers/handlers.go:220-250 | `reject` only changes the status; any other action approves with the form's lyrics and settings (lyrics mode empty), and replaces the persona only for premium records with a non-empty persona or inspiration; nothing else changes |
| Handlers.ReviewedRequest | handlers/handlers.go:228-256 | after approval the request carries the reviewer's lyrics, falling back to the bracketed lyrics, and the reviewer's settings |
| Handlers.SubmitReview | handlers/handlers.go:206-262 | 404 exactly for an unknown id and 400 exactly for a record not awaiting review, both without change; otherwise 302 and the record saved as `ReviewOutcome` gives |

## Left out

- Strings are modelled one character per byte. White space is ASCII white space, so `strings.TrimSpace` and `strings.Fields` skip the Unicode spaces Go also recognises. `strings.ToLower` lowers ASCII letters only.
- `strings.Fields(trimmed)[0]` is modelled through `FieldEnd`, the end of the first field. The rest of the field list is never used by the source.
- JSON decoding (`json.Unmarshal`, `ShouldBindJSON`) is a parameter returning a value or nothing. Which texts decode is not modelled.
- The chat model, the generation service, Telegram's `sendMessage` (`replyTelegramText`) and all HTTP transport are not part of this model. The dispatch returns an action or a reply text instead of sending it.
- Notifications (`notifier.Send` after review and after completion) are not modelled. Their failures are only logged by the source.
- Goroutines and the store's reader-writer lock are not modelled. Each stage is one sequential method, and the caller runs the next stage.
- The sleep between polls, `uuid.New` and `time.Now` are not modelled. Ids and times are arguments, and every save within one engine call uses the same `now`.
- Go shares one record pointer between the engine and the store. The model passes record values, and every stage ends by saving its final record. Aliasing of that pointer is therefore not captured.
- Workflow.BuildRequest and Workflow.SubmitToSuno require the record to hold settings. The source dereferences a nil pointer, and panics, when neither edited nor generated settings exist.
- `Weirdness` and `Duration` are opaque 64-bit values. The form's weirdness is an input: the value `strconv.ParseFloat` returns with its error ignored (zero for text that does not parse, ±Inf for a number out of range).
- The HTTP `StartWorkflow` handler (form parsing, file upload and saving) is not modelled. Its engine call is `Workflow.StartWorkflow`.
- The other HTTP handlers are not modelled: the pages, the list, the status page and the health check. They are rendering only.
- The 500 branch of `SubmitReview` is left out, because `ApproveWorkflow` always returns `nil`.
- Telegram.ConstantTimeCompare models only the result of `subtle.ConstantTimeCompare`, not its constant timing.
- The other endpoints of the generation-service client (`Generate`, `ExtendAudio`, `GetClip`, …) and the older client under `suno/` are not part of this model.
- The cancellation error is whatever text the context reports (`ctx.Err()`). It is a parameter of the poll outcome.

## Findings

| source | as written | input that shows it | evidently intended | confidence | as-written member | corrected member |
|---|---|---|---|---|---|---|
| workflow/workflow.go:292-297 (and the identical loop at 323-328) | every `}` decrements the depth, including one before the first `{`, so the depth can go negative and the end is taken at the wrong `}` | `}{{}}` hands the unbalanced `{{}` to the decoder; `} {}` finds nothing although `{}` is there | count depth from the first `{` on, so the span is the first balanced object | high (not executed) | Extract.SourceObjectSpan, Extract.SourceExtractObject, Extract.StrayCloseBreaksSpan | Extract.ObjectSpan, Extract.ObjectSpanSpec, Extract.FirstObjectFound, Extract.ExtractObject |
