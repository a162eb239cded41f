# Slash-command dispatcher of the Mattermost AI plugin, in Dafny

This project models the plugin's handling of its two slash commands, `/summarize` and `/imagine` (`server/commands.go`).

- **Parsing.** `ExecuteCommand` trims the command text with Go's `strings.TrimSpace`. It splits the text once on the first plain space with `strings.SplitN(…, " ", 2)`. The verb is the first piece, slash included. The prompt is the rest of the line, or "".
- **Guards and routing.** A nil argument record is a 500 error. The channel lookup runs next, then the usage-restriction check. Both run before the verb is examined, so they run for every verb. A failed lookup is a 500 error and a refused user is a 401 error. After that:
  - an unknown verb gets an empty response;
  - `/summarize` inside a thread starts a summary thread and redirects to the post it returns;
  - `/summarize` outside a thread gets a fixed ephemeral notice;
  - `/imagine` hands a job to the background and answers with a fixed ephemeral notice.
- **The image job.** This is the body of the goroutine in `imagine`. It generates, PNG-encodes, uploads and posts, strictly in that order. It stops at the first failure and logs exactly one error.

Files:

- `wrappers.dfy` — `Option`, `Result` (a Go value with an `error`) and `Outcome` (a bare Go `error`).
- `go_strings.dfy` (module `GoStrings`) — the library behaviour the parser depends on: `unicode.IsSpace`, `strings.TrimSpace`, `strings.Index`, `strings.SplitN` with n = 2, and `strings.Join`.
- `commands.dfy` (module `Commands`) — `ExecuteCommand`, `summarizeCurrentContext` and `imagine`, as pure functions. The synchronous collaborators are oracle functions in a `Collaborators` value: the channel lookup, the usage check and the thread starter. An `Execution` records the reply, the collaborator calls in order, and the job handed to the background.
- `imagine_job.dfy` (module `ImagineJob`) — the job as an imperative method `Run`. It runs against a `PluginApi` object whose `journal` field collects the uploads, posts and log entries in order. The generator and the PNG encoder are oracle parameters. `JobEffects` is the specification the method is proved against. `FirstFailure` says, from the collaborators' answers alone, which step fails first.
- `plugin.dfy` (module `Plugin`) — `ServeCommand`. It decides the reply first and then runs the job, if there is one.

Details of the code that the model keeps:

- The verbs are `/summarize` and `/imagine`, with the slash.
- The channel lookup and the usage check run before the verb is examined. An unknown verb therefore still causes both calls and can still fail with 500 or 401.
- The split is on one plain space character. A tab does not separate the verb from the prompt. Any further spaces after the first stay at the start of the prompt.
- The channel-summary notice is spelled "Channel summarization not implmented".
- Failures have HTTP statuses, not named error kinds: 500 for a nil argument record, a failed channel lookup or a failed thread start, and 401 for a refused user.

## Model

| member | source | states |
|---|---|---|
| GoStrings.LeadingSpace | server/commands.go:45 | the result counts leading white-space characters only, and the next character, if any, is not white space |
| GoStrings.TrailingSpace | server/commands.go:45 | the result counts trailing white-space characters only, and the character before them, if any, is not white space |
| GoStrings.TrimSpace | server/commands.go:45 | with white space as `unicode.IsSpace` defines it (`GoStrings.IsSpace`: the Latin-1 spaces and the other Unicode White_Space code points), the trimmed text has no white space at either end and is no longer than the input |
| GoStrings.LeadingSpaceUnique | server/commands.go:45 | the leading white-space count is the only count with those two properties |
| GoStrings.TrailingSpaceUnique | server/commands.go:45 | the trailing white-space count is the only count with those two properties |
| GoStrings.TrimSpaceOfPadded | server/commands.go:45 | trimming any white-space padding around an already trimmed text gives that text back |
| GoStrings.TrimSpaceOfTrimmed | server/commands.go:45 | a text with no white space at either end is its own trimmed form |
| GoStrings.TrimSpaceSplits | server/commands.go:45 | every text is its trimmed form with all-white-space text before and after it |
| GoStrings.TrimSpaceIdempotent | server/commands.go:45 | trimming twice is the same as trimming once |
| GoStrings.TrimSpaceIgnoresPadding | server/commands.go:45 | extra white space around a text does not change its trimmed form |
| GoStrings.Index | server/commands.go:45 | the result is the position of the first occurrence of the separator, or -1 exactly when it does not occur |
| GoStrings.IndexAfterPrefix | server/commands.go:45 | a separator that follows a separator-free prefix is found at the prefix's length |
| GoStrings.SplitFirst | server/commands.go:45 | two pieces exactly when the separator occurs; the first piece is separator-free; the pieces joined by the separator rebuild the text, or the single piece is the text |
| GoStrings.SplitFirstAfterPrefix | server/commands.go:45 | splitting "a + sep + b" with a separator-free a gives exactly a and b |
| GoStrings.JoinSplitFirst | server/commands.go:45-72 | `GoStrings.Join` is `strings.Join` as line 72 uses it; joining the pieces of the split with the separator gives back the split text |
| Commands.ParseCommand | server/commands.go:45-72 | the verb holds no space and is empty exactly when the trimmed text is; with a space, verb + " " + prompt is the trimmed text; without one, the verb is the trimmed text and the prompt is "" |
| Commands.ParseOfVerbAndPrompt | server/commands.go:45-72 | parsing a space-free verb, one space and a prompt that does not end in white space gives back that verb and that prompt |
| Commands.ParseIgnoresPadding | server/commands.go:45 | white space around the command text changes neither verb nor prompt |
| Commands.SummarizeCurrentContext | server/commands.go:86-102 | with a root id it makes exactly one thread-start call, redirects to "/_redirect/pl/" + the returned post id, and fails exactly when the thread start fails; without a root id it returns the fixed ephemeral notice for the channel and calls nothing |
| Commands.Imagine | server/commands.go:104-137 | the returned error is always nil, and the job carries the prompt and the invocation's channel and user |
| Commands.ExecuteCommand | server/commands.go:31-84 | nil args is a 500 error with no calls and no job; the channel lookup is always the first call; a failed lookup is a 500 error after that call alone; the reply is a 401 error exactly when the lookup succeeds and the usage check refuses, and then only the two guard calls happen; a thread start or a job happens only when both guards pass, and then the two guard calls come first |
| Commands.UnknownVerbIsIgnored | server/commands.go:41-58 | a verb other than exactly "/summarize" or "/imagine" makes only guard calls and starts no job; the reply is empty exactly when the guards pass, and otherwise a 500 or 401 error |
| Commands.SummarizeInThread | server/commands.go:60-94 | "/summarize" with a root id, once authorized, calls the thread starter once with the root and user ids; the reply is the redirect on success and a 500 error on failure, never ephemeral, and no job starts |
| Commands.SummarizeInChannel | server/commands.go:60-101 | "/summarize" without a root id, once authorized, returns "Channel summarization not implmented" for the invoking channel and makes no thread-start call |
| Commands.ImagineDispatchesJob | server/commands.go:71-81 | "/imagine" with any prompt, "" included, once authorized, returns "Generating image, please wait." for the invoking channel and hands over exactly one job with the parsed prompt, channel and user; no thread start |
| Commands.ImaginePromptIsTheRestOfTheLine | server/commands.go:45-81 | for the text "/imagine " + p, with p not ending in white space, the job's prompt is exactly p |
| Commands.ImagineReplyIgnoresPrompt | server/commands.go:71-81 | two "/imagine" invocations from the same user and channel get the same reply whatever their prompts |
| Commands.RedFoxExample | server/commands.go:45-81 | "/imagine a red fox" by an authorized user returns the ephemeral notice after the two guard calls and hands over a job with prompt "a red fox" |
| Commands.TabIsPartOfVerb | server/commands.go:45-46 | "/imagine\tfox" parses as the single verb "/imagine\tfox" with an empty prompt: a tab does not separate |
| Commands.TabDoesNotSeparate | server/commands.go:45-58 | an authorized "/imagine\tfox" gets the empty response after the two guard calls and starts no job |
| ImagineJob.PluginApi.constructor | server/commands.go:118-129 | the API starts with an empty journal and the given upload and post answers |
| ImagineJob.PluginApi.UploadFile | server/commands.go:118 | appends exactly one upload entry with the bytes, channel and file name, and returns the host's answer for those arguments |
| ImagineJob.PluginApi.CreatePost | server/commands.go:124-129 | appends exactly one post entry and returns the host's answer for that post |
| ImagineJob.PluginApi.LogError | server/commands.go:106-133 | appends exactly one log entry with the message and the error |
| ImagineJob.JobSucceeds | server/commands.go:106-133 | when no step fails (`ImagineJob.FirstFailure`, the first failing step read off the collaborators' answers, is None), the job's effects are exactly one upload of the encoded bytes to the job's channel as "generated-image.png", then one post (`ImagineJob.ResultPost`, the literal of lines 124-129) with message "Image generated by the AI from the text: " + prompt, the job's channel and user, and the uploaded file id as its only file; nothing is logged |
| ImagineJob.JobStopsAtFirstFailure | server/commands.go:106-133 | when a step fails first, exactly one error is logged, as the last effect and with that step's message (`ImagineJob.FailureMessage`: the texts of lines 108, 114, 120 and 131); there is an upload only if upload or post failed, and a post only if the post failed |
| ImagineJob.Run | server/commands.go:105-134 | the journal grows by exactly the job's effects, in order, and by nothing else; those effects are `ImagineJob.JobEffects`, the specification of the goroutine body whose properties the two lemmas above and `ImagineJob.FirstFailureMatchesLog` prove |
| ImagineJob.FirstFailureMatchesLog | server/commands.go:106-133 | the job logs an error exactly when some step fails, and it posts successfully exactly when no step fails |
| Plugin.ServeCommand | server/commands.go:71-137 | the reply is `ExecuteCommand`'s reply, whatever the job does; the journal grows by the job's effects when a job was handed over, and otherwise stays unchanged |

## Left out

- `registerCommands` (server/commands.go:13-29) registers the two triggers with the host. It is configuration with no logic.
- Concurrency. The goroutine runs as a sequential step after the reply, in `Plugin.ServeCommand`. Interleavings between jobs, and between a job and the host, are not modelled.
- Aliasing. The goroutine reads `args.ChannelId` and `args.UserId` through the `args` pointer when it runs. The model copies both fields into the `Job` at dispatch, so a later change to `args` by the host is not captured.
- PNG encoding and images. `png.Encode` into a fresh `bytes.Buffer` is an oracle that returns bytes or an error. The image type is a plain byte sequence.
- Collaborator bodies. The channel lookup, `checkUsageRestrictions`, `startNewSummaryThread`, the image generator, `UploadFile` and `CreatePost` are oracle functions of their arguments. Their bodies are not part of this model.
- Error and response details. Of an `AppError`, only the HTTP status is kept. The where/id/detail strings are left out. The `plugin.Context` argument is unused and left out. A `CommandResponse` is kept only as its shape: empty, a redirect, or ephemeral text for a channel.
- Log entries keep the message and the error text. Go's key/value form `"error", err` is flattened to those two strings.
- Strings are sequences of Unicode code points. Go strings are byte sequences, so `TrimSpace` on invalid UTF-8 is not modelled. Neither is the byte-offset meaning of `strings.Index`.
- The commented-out parameter parsing (server/commands.go:47-54) is not code and is not modelled.
