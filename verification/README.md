# IBM Generative AI CLI — a Dafny model of its decision logic

The `genai` command-line client is a thin layer over the IBM Generative AI
Node SDK. What it decides for itself is modelled here as pure functions over
immutable data, with their contracts proved:

- **utilities**: the generation-input validator `parseInput`, `pickDefined`,
  `isAbortError`, `isCancelOperationKey`, the batching generator
  `createBatchTransform` and the `parseInput` stage of `createInputStream`.
  Also the offset/limit `paginate` loop, the usage-error classifier, output
  format selection and the profile middleware;
- **interactive sessions** (`generate interactive` and `generate chat
  interactive`): one event-driven state machine over the record
  `{isTerminated, isProcessing, abortOperation}`. Terminal input, signals and
  the SDK stream are events. The transcript written through readline is a
  list of writes;
- **batch commands** (`text generation create`, the default `generate`,
  `tokenize`): request outcomes are a given sequence of results in input
  order. The lines written and the final raise are functions of that
  sequence;
- **argument middlewares**: the generation `parameters` (with
  `length_penalty`), `generate config`'s `return_options` and update/reset
  choice, and the `tunes create` parameters and request;
- **small commands**: the history time window, the file purpose filter and
  the configuration objects built by `config`.

JavaScript values are modelled by `JsValues.JsValue`. `undefined`, `null`,
booleans, numbers (as reals), strings, Buffers, arrays and objects are
distinct cases; objects carry own and inherited properties and the classes
they are instances of. Truthiness, `?.`, `??` and `instanceof` are written
out where the code depends on them. JSON and YAML serialisation stay
symbolic (`Io.Write.Json`, `Formatters.Rendered`).

Files: `wrappers.dfy` (Option/Result), `js_values.dfy`, `io.dfy`,
`seqs.dfy`, one file per source component (`parsers`, `common`, `streams`,
`inputs`, `paginate`, `errors`, `formatters`, `profile`, `session`,
`generation_create`, `generation_default`, `tokenization`, `parameters`,
`generate_config`, `tunes_create`, `history`, `files_list`,
`config_default`).

## Model

| member | source | states |
|---|---|---|
| Parsers.ParseInput | src/utils/parsers.js:1-11 | a string is returned unchanged; an object with an own string `input` yields it; anything else, `null` and `undefined` included, fails with the "Invalid input" message, and success holds exactly for those two shapes |
| Parsers.ParseInputIdempotent | src/utils/parsers.js:1-7 | a successful result is a string, so parsing it again gives the same result |
| Parsers.InheritedInputRejected | src/utils/parsers.js:4 | an `input` that is only inherited, not own, is rejected |
| Common.PickDefined | src/utils/common.js:3 | exactly the keys whose value is not `undefined` are kept, with their values |
| Common.PickDefinedIdempotent | src/utils/common.js:3 | picking twice equals picking once |
| Common.PickDefinedKeepsFalsy | src/utils/common.js:3 | `null`, `false`, `0` and `""` are kept |
| Common.CancelKeyCharacterization | src/utils/common.js:7-20 | a value is a cancel key iff it is a one-byte Buffer holding 0x03, 0x04 or 0x1a |
| Common.NotCancelKeys | src/utils/common.js:17-19 | a string holding the Ctrl+C character and multi-byte buffers containing a cancel byte are not cancel keys |
| Common.AbortErrorCharacterization | src/utils/common.js:5 | a value is an abort error iff it is an object whose `name`, own or inherited, is "AbortError"; `null`, `undefined` and every primitive are not |
| Common.AbortErrorExamples | src/utils/common.js:5 | `null`, `undefined` and the bare string "AbortError" are not abort errors; an Error inheriting the name "AbortError" is one, unless an own `name` shadows it |
| Streams.ParseValues | src/utils/streams.js:13-17 | each streamed value goes through `parseInput` in order; the output is the longest valid prefix, and the error is raised at the first invalid value |
| Streams.ParseValuesAllValid | src/utils/streams.js:13-17 | when every value is a valid input, nothing is raised and every value is yielded |
| Streams.ReachedCeil | src/utils/streams.js:26 | `batch.length >= batchSize` holds iff the length reaches the size rounded up, so a fractional size acts as the next integer |
| Streams.PushKeepsFilling | src/utils/streams.js:26-30 | one item of the loop keeps the loop state: the emitted and pending batches concatenate to the items seen, emitted batches are full, and with NaN nothing is emitted |
| Streams.FillBatches | src/utils/streams.js:24-31 | after the loop, the emitted batches and the pending one concatenate back to the source; with a numeric size every emitted batch holds ceil(size) items and the pending one 1 to ceil(size) items of a non-empty source; with NaN nothing is emitted |
| Streams.BatchTransform | src/utils/streams.js:20-34 | a size below 1 fails with "Batch size must be positive"; a NaN or missing size passes and yields the whole source as one batch; otherwise, with k = ceil(size), the batches concatenate back to the source, all but the last hold k items, the last 1 to k, their number is ceil(n / k), and an empty source yields none |
| Streams.CeilOfSizes | src/utils/streams.js:21-26 | an integer size is used as it is, and a size of 2.5 acts as 3 |
| Inputs.ParseAll | src/commands/text/generation/create.js:47 | stdin values are mapped through `parseInput`; success iff every value is valid, and then one string per value |
| Inputs.CoerceFiles | src/commands/text/generation/create.js:27-32 | the file inputs are flattened in file order and then parsed; success iff every flattened value is valid |
| Inputs.SelectInputs | src/commands/text/generation/create.js:42-47 | inline inputs win over file inputs, which win over stdin |
| Inputs.StdinUsedLast | src/commands/text/tokenization.js:77-82 | with neither inline nor file inputs, valid stdin values give one input each |
| Paginate.Loop | src/utils/paginate.js:1-13 | every call has limit 100; each offset is the previous one plus the returned `itemCount`; the loop stops as soon as the offset is not below the latest `totalCount` |
| Paginate.Paginate | src/utils/paginate.js:2-9 | the first call is `{offset: 0, limit: 100}`, so the callback always runs at least once |
| Paginate.MissingItemCountStopsAfterOneCall | src/utils/paginate.js:5-11 | a reply without `itemCount` makes the offset NaN, and exactly one call is made |
| Paginate.OffsetsIncrease | src/utils/paginate.js:5-12 | with positive item counts the offsets passed to the callback strictly increase |
| Paginate.CallerReply | src/commands/request/list.js:43-46 | the listing callbacks return `itemsCount`, so the `itemCount` read by `paginate` is absent |
| Paginate.ListingsFetchOnePage | src/commands/tune/list.js:26-29 | as written, a listing of 250 items makes a single call |
| Paginate.CorrectedCallerReply | src/commands/file/list.js:27-30 | the intended reply carries the page length as `itemCount` |
| Paginate.CorrectedListingFetchesEveryPage | src/utils/paginate.js:1-13 | with the intended replies, `total` items are fetched in ceil(total / 100) calls at offsets 0, 100, 200, … and the loop ends |
| Errors.UsageErrorCases | src/errors.js:8-11 | a value not derived from the SDK `BaseError` (including `null` and `undefined`), the SDK `InvalidInputError` and the local `InvalidInputError` are usage errors; any other SDK error is not |
| Errors.SdkErrorsExamples | src/errors.js:6-11 | a plain SDK `BaseError` is not a usage error; an SDK `InvalidInputError`, `null` and `undefined` are |
| Formatters.ValidFormats | src/utils/formatters.js:3-7 | a format is valid iff it is "json" or "yaml" |
| Formatters.Format | src/utils/formatters.js:9-17 | "json" gives the JSON text, "yaml" the YAML text, and anything else `undefined` instead of an error |
| Formatters.InvalidFormatIsUndefined | src/utils/formatters.js:10 | an invalid format such as "xml" returns `undefined` |
| Formatters.FormatChecked | src/utils/formatters.js:10-16 | the intended function fails with "Invalid format" iff the format is invalid, and otherwise agrees with `format` |
| Profile.ProfileOverlay | src/middleware/profile.js:4-11 | without a truthy profile the arguments are unchanged; an unknown profile fails with "Profile not found" and writes nothing; otherwise every profile key overrides and every other argument is kept |
| Session.Start | src/commands/generate/interactive.js:12-14 | an explicit `stream: false` is refused before any session exists; otherwise the session asks for a line with nothing written and no request |
| Session.BeginTurn | src/commands/generate/interactive.js:60-103 | the loop exits (phase Closed) exactly when the session is terminated, writing "Goodbye" and "\n"; otherwise it resets `isProcessing`, takes a fresh controller (the chat variant keeps its one), writes nothing, and spins iff that controller is already aborted |
| Session.StartEstablishesInv | src/commands/generate/interactive.js:16-20 | the initial session satisfies the invariant |
| Session.StepKeepsInv | src/commands/generate/interactive.js:22-99 | every event handler keeps the invariant |
| Session.RunKeepsInv | src/commands/generate/chat/interactive.js:72-114 | every reachable session keeps the invariant and its variant: only a terminated session is closed, a streaming turn is processing, only the chat variant can spin |
| Session.CancelWhileIdle | src/commands/generate/interactive.js:22-27 | a cancel while waiting for a line aborts, terminates, clears the line and says goodbye |
| Session.CancelWhileProcessing | src/commands/generate/chat/interactive.js:29-34 | a cancel while a reply streams only aborts the turn's controller |
| Session.KeyFilter | src/commands/generate/interactive.js:36-40 | while a request is processed, a raw chunk reaches readline iff it is a one-byte Buffer 0x03, 0x04 or 0x1a; otherwise every chunk does |
| Session.TypingWhileStreaming | src/commands/generate/interactive.js:36-58 | while a reply streams, any sequence of non-cancel keys and history pushes leaves the session exactly as it was |
| Session.HistoryFilter | src/commands/generate/chat/interactive.js:61-65 | a history entry is dropped iff a request is processing |
| Session.EmptyLine | src/commands/generate/interactive.js:70-71 | an empty line writes nothing, issues no request and asks again |
| Session.LineIssuesRequest | src/commands/generate/chat/interactive.js:79-97 | a non-empty line issues one request with the model or "default", the shared parameters and the current signal; a chat request holds one user message and the current conversation id |
| Session.StreamChunks | src/commands/generate/chat/interactive.js:99-102 | chunk texts are written in arrival order and the chat conversation id becomes the last chunk's |
| Session.RunAppend | src/commands/generate/interactive.js:60-99 | running two event traces one after the other is running their concatenation |
| Session.Turn | src/commands/generate/interactive.js:68-89 | a whole turn writes the reply's texts in order, then one newline, issues one request and asks again |
| Session.HelloScenario | src/commands/generate/interactive.js:85-88 | "hello" answered by "Hi" and " there" writes exactly those texts and a newline |
| Session.TurnFailure | src/commands/generate/interactive.js:90-98 | an abort error writes a newline and a line clear; any other error is reported; the loop continues |
| Session.StoppedIsFinal | src/commands/generate/interactive.js:100-103 | once closed, spinning or crashed, no event changes anything |
| Session.PlainCancelAffectsOneTurn | src/commands/generate/interactive.js:63-65 | a plain turn cancelled mid-stream is followed by a turn under a fresh, unaborted controller |
| Session.ChatAbortIsPermanent | src/commands/generate/chat/interactive.js:67-68 | the chat session's single controller, once aborted, stays aborted and no line is ever read again |
| Session.ChatCancelMidStreamSpins | src/commands/generate/chat/interactive.js:67-76 | as written, cancelling a chat reply mid-stream makes the session spin, and no later event is handled |
| Session.CorrectedChatNeverSpins | src/commands/generate/interactive.js:64-65 | with a controller per turn the chat session never spins, and a cancelled reply is followed by a fresh question |
| GenerationCreate.Requests | src/commands/text/generation/create.js:49-61 | one request per input, in input order, all with the same model and parameters |
| GenerationCreate.SettleAll | src/commands/text/generation/create.js:64-75 | settling gives one value per outcome: the value if fulfilled, the reason if rejected |
| GenerationCreate.Emit | src/commands/text/generation/create.js:63-80 | with `allowErrors` one record per input is printed and nothing is raised; without it every output is printed in order if all succeed, else nothing is printed and a rejection propagates |
| GenerationCreate.PoliciesAgreeWithoutFailures | src/commands/text/generation/create.js:63-80 | when every request succeeds both policies print the same |
| GenerationCreate.Create | src/commands/text/generation/create.js:34-80 | `allowErrors` defaults to false, so a failure without the flag prints nothing and rejects |
| GenerationDefault.MappedInputs | src/commands/text/generation/default.js:60-64 | one request per input with the model or "default", the shared parameters and the input |
| Io.StreamWrite | src/commands/text/generation/default.js:73 | a byte stream writes a string or a Buffer and throws a TypeError with a string message for any other value ("May not write null values to stream" for `null`) |
| Io.JsonWrite | src/commands/text/generation/default.js:87 | `write(JSON.stringify(v))` writes the JSON of every value except `undefined`, where it throws as `write(undefined)` does |
| GenerationDefault.Attempt | src/commands/text/generation/default.js:85-88 | an attempt succeeds iff the output is not nullish and has a `generated_text`, and then yields that text, whose JSON can be written; a failed attempt of a resolved output carries a non-nullish error with a string message; a rejection is passed on unchanged |
| GenerationDefault.MissingTextIsFailure | src/commands/text/generation/default.js:85-101 | an output resolved without `generated_text` writes the write error's `{error}` record and "\n" and raises the aggregate SDK error |
| GenerationDefault.NonStreamFrom | src/commands/text/generation/default.js:81-101 | the loop ends normally only if no error was recorded before, and the only error it raises itself is the aggregate "Errors have been encountered during generation, see output" |
| GenerationDefault.NonStreamFromWrites | src/commands/text/generation/default.js:85-94 | when no rejection crashes the handler, each input writes its JSON record line then "\n", in input order: its `generated_text`, or `{error}` for a rejection, a nullish output or a missing text; a failure does not stop later inputs |
| GenerationDefault.NonStreamFromRaised | src/commands/text/generation/default.js:81-101 | when no rejection crashes the handler, the SDK error is raised at the end iff an error was recorded before or some input failed, a resolved output without `generated_text` counting as a failure |
| GenerationDefault.NonStreamLines | src/commands/text/generation/default.js:85-94 | without failures that crash the handler, the writes are exactly one record line per input |
| GenerationDefault.ChunkWrite | src/commands/text/generation/default.js:73 | a chunk is written iff it is not nullish and its `generated_text` is a string or a Buffer, as the byte stream writes that text; its error is never nullish |
| GenerationDefault.Written | src/commands/text/generation/default.js:69-74 | the number of leading chunks that can be written: all before it write, the chunk at it (if any) does not |
| GenerationDefault.Caught | src/commands/text/generation/default.js:75-80 | the streaming `catch` writes `{error: err.message}` then "\n" and leads to the SDK error; a nullish reason writes only the "\n" and the TypeError escapes |
| GenerationDefault.Ended | src/commands/text/generation/default.js:67-80 | a stream that ends without failure writes only the final "\n"; a failing stream is caught |
| GenerationDefault.Streamed | src/commands/text/generation/default.js:67-80 | the output always ends with the "\n" of `finally`, and the only error it raises itself is the aggregate one |
| GenerationDefault.StreamedOutput | src/commands/text/generation/default.js:67-80 | the leading writable chunks are written in arrival order; the first chunk that cannot be written (missing, `null` or non-string text) ends the loop with its `{error}` record and "\n", and otherwise the stream's failure, if any, is caught the same way |
| GenerationDefault.StreamedPrefix | src/commands/text/generation/default.js:69-74 | the writes start with those of the leading writable chunks, in arrival order |
| GenerationDefault.StreamedTail | src/commands/text/generation/default.js:69-80 | after those writes comes the caught error of the first chunk that cannot be written, or else the stream's own ending |
| GenerationDefault.StreamedRaised | src/commands/text/generation/default.js:67-101 | streaming ends normally iff every chunk is written and the stream does not fail; it raises the SDK error iff a chunk cannot be written or the stream fails with a non-nullish reason |
| GenerationDefault.MissingChunkTextIsFailure | src/commands/text/generation/default.js:73-80 | a chunk without `generated_text` after a good one: the good text, then the write error's record and "\n", and the SDK error |
| GenerationDefault.NonStreamWriteCount | src/commands/text/generation/default.js:81-101 | without a crashing rejection, the non-streaming loop writes exactly two items per input and ends normally iff every attempt succeeds (an output without `generated_text` does not) |
| GenerationDefault.Default | src/commands/text/generation/default.js:51-101 | one request per input, carrying that input; streaming is chosen by a truthy `parameters.stream`; without it, one outcome per input and, when no rejection crashes the handler, two writes per input and a normal end iff every output has a `generated_text`; with it, a normal end iff every chunk is written and the stream does not fail |
| Tokenization.Requests | src/commands/text/tokenization.js:86-93 | one request per input, with the model or "default" and `return_tokens` defaulting to true |
| Tokenization.Settle | src/commands/text/tokenization.js:87-99 | a response is reduced to `{token_count, tokens}`; a nullish response rejects; a rejection stays a rejection |
| Tokenization.EmitFrom | src/commands/text/tokenization.js:103-118 | one line per settled result in order, and the SDK error is raised iff some result was rejected |
| Tokenization.Tokenize | src/commands/text/tokenization.js:85-118 | exactly two writes per input, and the SDK error is raised after all lines iff some request was rejected |
| Tokenization.RejectionDoesNotStopOthers | src/commands/text/tokenization.js:85-101 | a successful input writes its record whatever the other inputs did |
| Parameters.CoerceModel | src/commands/generate/index.js:25-28 | a non-string `model`, such as a repeated flag, is rejected with "Only a single model must be specified" |
| Parameters.OptionalModel | src/commands/generate/index.js:20-30 | `model` of `generate` may be absent but, when given, must be a single string |
| Parameters.RequiredModel | src/commands/text/generation/index.js:18-29 | `model` of `text generation` is mandatory and must be a single string |
| Parameters.CheckDecodingMethod | src/commands/generate/index.js:36-42 | the `choices` check rejects `--decoding-method` iff some given value (each item of a repeated flag) is not "greedy" or "sample", and reports exactly such values |
| Parameters.ChoicesGuardDecodingMethod | src/commands/text/generation/index.js:30-35 | once the check passed, the assembled `decoding_method` is "greedy" or "sample" (or a list of those) |
| Parameters.BeamRejected | src/commands/generate/index.js:36-42 | `--decoding-method beam` is rejected, reporting "beam" |
| Parameters.LengthPenalty | src/commands/generate/index.js:129-132 | `length_penalty` holds exactly the given decay settings |
| Parameters.PenaltyEntry | src/commands/text/generation/index.js:123-129 | `length_penalty` is included iff a decay setting is given |
| Parameters.AssembleParameters | src/commands/generate/index.js:128-151 | every given flag appears under its snake_case key and no other key appears; `length_penalty` appears iff a decay setting is given; `parameters` is undefined iff no flag is given |
| Parameters.PickedCarries | src/commands/text/generation/index.js:127-141 | each flag is present under its key iff it is defined, with its value |
| Parameters.NothingPickedMeansNoFlags | src/commands/text/generation/index.js:142 | an empty assembled map means no flag was given |
| GenerateConfig.ReturnOptions | src/commands/generate/config.js:48-55 | `return_options` holds exactly the given return flags, with `--token-ranks` under `input_ranks`; it is empty iff no return flag is given |
| GenerateConfig.ConfigParameters | src/commands/generate/config.js:56-58 | without return flags `parameters` is untouched; otherwise it keeps every key and value and gains `return_options` |
| GenerateConfig.ConfigParametersAbsent | src/commands/generate/config.js:47-59 | after both middlewares `parameters` is absent iff no generation flag and no return flag was given |
| GenerateConfig.ConfigCommand | src/commands/generate/config.js:66-90 | `--replace` with `--reset` is a usage error; with a model or parameters an update is sent with strategy "replace" iff `--replace`, else "merge"; otherwise a reset/read call carries only `reset` and the timeout |
| GenerateConfig.ResetAloneResets | src/commands/generate/config.js:74-90 | `--reset` alone sends a reset call; a model alone sends an update with the "merge" strategy |
| GenerateConfig.EmptyModelReads | src/commands/generate/config.js:74 | an empty model name with no parameters is no input, so the configuration is read |
| TunesCreate.Missing | src/commands/tunes/create.js:13-43 | `name`, `model`, `task`, `method` and `training` are each reported iff missing |
| TunesCreate.TuneParameters | src/commands/tunes/create.js:59-131 | the seven numeric settings are always present, as given or 16, 16, 0.3, 256, 128, 20 and 100; `init_method`, `init_text` and `verbalizer` appear iff set; `parameters` is never undefined |
| TunesCreate.CreateTune | src/commands/tunes/create.js:26-31 | missing required arguments or a task other than generation, classification or summarization are usage errors; otherwise the request maps model, task and method to `*_id`, and the file lists to `*_file_ids` |
| TunesCreate.Printed | src/commands/tunes/create.js:133-143 | the printed object has the result's `id` and `name`; a nullish result throws |
| TunesCreate.PrintedDropsOtherFields | src/commands/tunes/create.js:143 | no other field of the result is printed |
| History.Printed | src/commands/history/default.js:38-49 | an entry is printed iff the service yields it for the given status and origin, and it lies strictly after `from` (if given) and strictly before `to` (if given) |
| History.BoundsAreStrict | src/commands/history/default.js:43-44 | an entry stamped exactly at either bound is not printed |
| History.NoBoundsPrintsAll | src/commands/history/default.js:43-44 | without bounds every yielded entry is printed, in order |
| History.PrintedInYieldOrder | src/commands/history/default.js:40-48 | the output keeps the service's yield order |
| History.StatusIsNotFilteredLocally | src/commands/history/default.js:39-40 | status is filtered by the service only: a yielded entry inside the window is printed whatever its own status |
| FilesList.Line | src/commands/files/list.js:20 | the line is the id, " (", the file name and ")" |
| FilesList.Shown | src/commands/files/list.js:18-22 | a file is printed iff there is no purpose filter or its purpose is listed |
| FilesList.NoFilterListsAll | src/commands/files/list.js:19 | without a filter every file is listed, in order |
| FilesList.EmptyPurposeListsNothing | src/commands/files/list.js:19 | an empty purpose list is truthy and matches nothing |
| FilesList.ListedInYieldOrder | src/commands/files/list.js:18-22 | the printed files keep the service's yield order |
| ConfigDefault.EndpointPrompt | src/commands/config/default.js:31-35 | the endpoint question shows the flag, else `GENAI_ENDPOINT`, else the default endpoint |
| ConfigDefault.ApiKeyPrompt | src/commands/config/default.js:43 | the API-key question shows the flag or "none" |
| ConfigDefault.Section | src/commands/config/default.js:22-50 | without a profile the object holds the answer iff it is non-empty; with a profile it holds only `profiles[profile]`, which holds the answer iff it is non-empty |
| ConfigDefault.BuildConfig | src/commands/config/default.js:22-50 | a profile scopes both objects alike; the endpoint appears at top level iff there is no profile and the answer is non-empty, and likewise the API key |
| ConfigDefault.EmptyAnswersWriteNothing | src/commands/config/default.js:22-29 | no profile (or an empty one) and two empty answers give two empty objects |
| ConfigDefault.SecretsStayInCredentials | src/commands/config/default.js:36-50 | the API key is written only to the credentials, never to the configuration |

## Left out

- Terminal and readline mechanics are not modelled: the stdin Proxy, `rl.write` of control keys and `promisify(rl.question)`. They appear only as the events of `Session.Event` and the writes of `Io.Write`.
- The SDK client is not modelled: its requests are recorded, and its outcomes are given sequences of results in input order. Promise timing is not modelled either, so which rejection `Promise.all` surfaces first is unspecified.
- GenerationCreate.Emit: says that a rejection propagates, not which one, because that depends on promise timing.
- The timeout (`timeout: args.timeout`, `AbortSignal.timeout(args.timeout)`) is dropped from the requests of `Session.Request`, `GenerationCreate.Request`, `GenerationDefault.Request` and `Tokenization.Request`; only `GenerateConfig.ConfigCommand` carries it, as an opaque value.
- `Io.StreamWrite`: Node's `ERR_INVALID_ARG_TYPE` message also names the type received; that suffix is not reproduced, and a `Uint8Array` other than a Buffer is not a separate value.
- Session.StreamChunks: chunk texts are taken to be strings; what `rl.write` does with a chunk lacking `result.generated_text` is not modelled.
- JSON and YAML serialisation, the stream-json parser, lodash `merge`/`isEmpty`, dayjs and `parseDateTime` are symbolic or replaced. Timestamps are integers and the history bounds are already parsed.
- `readJSONStream` is imported by the commands but not exported by src/utils/streams.js. It is modelled as "every JSON value of the stream, then `parseInput` on each".
- The bounded in-flight window of the batch runner is absent from the code: create.js issues every request before awaiting any, and the model follows the code.
- Numbers are reals. NaN is modelled only where the code compares with it: in `paginate` (`Paginate.Offset.NaN`) and for the batch size of `createBatchTransform` (`Streams.BatchSize.NotANumber`, which also stands for a missing size).
- src/utils/config.js (`allProfiles`, `loadProfileConfig`, `mergeConfig`), src/utils/constants.js and the environment are not part of this model. The profiles, `GENAI_ENDPOINT` and the default endpoint are parameters.
- yargs is modelled only where a command relies on it: `demandOption`, `choices` and `conflicts`, and the `default` values of `tunes create`. Apart from the `conflicts` message and the `demandOption` message for the model (`Parameters.MISSING_MODEL`, "Missing required argument: model"), the wording of yargs' own messages is not reproduced: a failed `choices` check is `Parameters.ChoiceError.InvalidValues` with the argument and the rejected values.
- GenerateConfig.ConfigParameters: lodash's deep merge is modelled only for the maps the `generate` middleware produces, which never contain `return_options`. The requires states that assumption.
- Console output of `prettyPrint`/`args.print` is a list of records, without formatting.
- File upload and download, tune read/download, src/utils/version.js, the command-tree index files, src/parser.js, src/cli.js and the client and print middlewares are glue or I/O and are not modelled.

## Findings

| source | as written | input that shows it | evidently intended | confidence | as-written member | corrected member |
|---|---|---|---|---|---|---|
| src/utils/paginate.js:11 | `offset += output.itemCount`, while every caller returns `itemsCount` (src/commands/request/list.js:45) | a listing with 250 items: the first reply has no `itemCount`, the offset becomes NaN and the loop stops after one page | the offset advances by the page length, so every page is fetched | not executed | Paginate.ListingsFetchOnePage | Paginate.CorrectedListingFetchesEveryPage |
| src/utils/formatters.js:10 | `new Error("Invalid format")` is constructed but not thrown | `format(data, "xml")` returns `undefined` | an invalid format raises "Invalid format" | not executed | Formatters.InvalidFormatIsUndefined | Formatters.FormatChecked |
| src/commands/generate/chat/interactive.js:67-68 | one AbortController serves the whole chat session | Ctrl+C while a reply streams: the signal stays aborted, every later `question` rejects at once, and the loop spins without reading input | a fresh controller per turn, as in src/commands/generate/interactive.js:64-65 | not executed | Session.ChatCancelMidStreamSpins | Session.CorrectedChatNeverSpins |
