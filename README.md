# Audio-to-Notion text pipeline, modelled in Dafny

This project models the text-processing core shared by five Pipedream
actions. Each action turns an audio recording into a Notion page: Kamil,
Nagraniepraw, Nagraniaa, Notatka and Notion-Voice-Notes. Kamil is the
reference. Each other action appears as a policy table that the same
generic definition reads.

The core runs in these steps:

- the recording is split into segments of a chosen size (`chunkFile`);
- each segment is transcribed, with a retry policy and results kept in
  order (`transcribe`, `transcribeFiles`);
- the segment texts are stitched into one transcript (`combineWhisperChunks`);
- the transcript is scanned for its longest sentence (`findLongestPeriodGap`);
- it is cut into token windows snapped to a period (`splitTranscript`);
- each window is sent to a chat model with a system prompt built from the
  chosen summary options (`createSystemPrompt`, `chat`, `sendToChat`);
- every answer is repaired into JSON (`repairJSON`) and the answers are
  merged field by field (`formatChat`);
- the transcript is cut into paragraphs within a character budget
  (`makeParagraphs`);
- both steps are priced (`calculateTranscriptCost`, `calculateGPTCost`).

Guards run before any of this: the file size (`checkSize`), and the
extension and temporary path of the download (`downloadToTmp`).
Notion-Voice-Notes also rewrites WebVTT captions (`formatWebVTT`).

Services, parsers and tokenizers are parameters:

- `JSON.parse` and `jsonrepair` are partial functions returning `Option`;
- `decode([t]) === "."` is a predicate on abstract tokens;
- every service call is a function from the attempt number to its result.

Strings are sequences of `char`. Where the code counts UTF-16 code units
(`charCodeAt`, `length`, `.sort()`), the model encodes the text to code
units explicitly. Costs use exact `real` arithmetic.

Modules, one file each:

| module | what it holds |
|---|---|
| `Wrappers` | `Option`, `Result` |
| `Json` | JSON values and JavaScript truthiness |
| `JsText` | `trim`, case mapping, UTF-16 |
| `TextOrder` | `.sort()` and `new Set` |
| `Paths` | `path.extname` and `path.basename` |
| `Stitcher` | the transcript stitcher |
| `PeriodGap` | the period-gap scan |
| `TokenChunker` | the token chunker |
| `Paragraphs` | the paragraph builder |
| `JsonRepair` | `repairJSON` |
| `Retry` | retry policies and ordered fan-out |
| `Aggregator` | the generic `formatChat` |
| `ChatVariants` | each action's field table |
| `Prompt` | the prompt assembler |
| `Adapter` | the chat response adapter |
| `Cost` | the cost accountant |
| `RunSettings` | run-level token budget, chat input and usage sums |
| `Segmenter` | segmenter arithmetic |
| `SizeGuard` | size and download guards |
| `WebVtt` | the WebVTT rewriter |

Three details of the code's behaviour are easy to misread:

- `splitTranscript` picks the forward period only when it is strictly
  nearer, so ties go backward.
- When no period lies within reach, both searches stop 100 tokens out.
  The tie then goes backward, so the boundary is the raw end minus 99
  rather than the raw end.
- `retries: 3` of `async-retry` allows up to four attempts, not three.

## Model

| member | source | states |
|---|---|---|
| Stitcher.CombineWhisperChunks | Kamil.mjs:985-1011 | The loop's result is the stitched transcript. A segment's trailing period is dropped when the next segment starts with a character that lower-casing leaves unchanged, and segments are joined by single spaces. |
| Stitcher.StitchedLength | Kamil.mjs:990-1007 | N segments stitch to their total length plus N−1 spaces minus the number of dropped periods. |
| Stitcher.StitchedSegments | Kamil.mjs:990-1004 | One segment stitches to itself unchanged. The result ends with the last segment unmodified. Each earlier segment appears with its period dropped exactly when the next one starts lowercase. |
| Stitcher.DigitContinuesSentence | Kamil.mjs:995-996 | The lower-case test also holds for digits. A segment ending in a period, followed by one that starts with a digit, loses the period. Before a capital letter the period is kept. |
| PeriodGap.LongestGapSpec | Kamil.mjs:1013-1048 | The gap is −1 exactly when the text has no period, and the text is then the fixed note. Otherwise the gap bounds every run between consecutive periods. When it is positive, some run reaches it, and the reported text is the first run that does, since the comparison is strict. A single period gives gap 0. |
| PeriodGap.FindLongestPeriodGap | Kamil.mjs:1013-1048 | The loop computes the scan's report, with the properties above as its postconditions. |
| TokenChunker.SnapShape | Kamil.mjs:1056-1085 | Both searches stop at a period or after 100 tokens. The forward stop wins only when strictly nearer. The boundary then moves one past the chosen token unless that token is the end. |
| TokenChunker.ChunksLossless | Kamil.mjs:1055-1091 | The chunks concatenate back to the token sequence. |
| TokenChunker.ChunksBounded | Kamil.mjs:1056-1085 | Every chunk is non-empty and at most `maxTokens + 101` tokens long. |
| TokenChunker.ChunksWithoutPeriod | Kamil.mjs:1056-1090 | With no period in the text, every chunk but the last is exactly `maxTokens` tokens. |
| TokenChunker.NextBoundary | Kamil.mjs:1056-1085 | The loop body's forward and backward index loops compute the snapped boundary. |
| TokenChunker.SplitTranscript | Kamil.mjs:1050-1095 | The loop returns the chunk partition. It is lossless and each chunk is within the bound. |
| Paragraphs.GroupsShape | Kamil.mjs:1870-1876 | Grouping k sentences per paragraph gives ceil(n/k) groups. Each group holds k consecutive sentences, the last possibly fewer, and together they hold the input in order. |
| Paragraphs.SentenceGrouper | Kamil.mjs:1870-1876 | The loop joins each group of k sentences with single spaces. |
| Paragraphs.Cut | Kamil.mjs:1886-1896 | The cut is the next space at or after the budget when that is within 1800 code units of the start. Otherwise it is the budget. It then backs off past any high surrogate it would split. |
| Paragraphs.CutElementAsWritten | Kamil.mjs:1881-1902 | The cut loop as written, restarting one code unit past every cut. |
| Paragraphs.PiecesAsWrittenFit | Kamil.mjs:1879-1904 | Every piece is within `max(budget, 1800)` code units and never ends in a high surrogate. |
| Paragraphs.HardCutDropsText | Kamil.mjs:1899 | As written, "abcdef" with budget 2 is cut into "ab" and "de". The code units "c" and "f" are lost. |
| Paragraphs.PiecesLossless | Kamil.mjs:1885-1900 | With the restart corrected, the pieces rejoined with the spaces they were cut at give back the paragraph. |
| Paragraphs.PiecesFit | Kamil.mjs:1885-1900 | With the restart corrected, every piece is within `max(budget, 1800)` code units and does not end in a high surrogate. |
| Paragraphs.CutElement | Kamil.mjs:1881-1902 | The corrected cut loop computes the lossless pieces. |
| Paragraphs.FlattenedPiecesFit | Kamil.mjs:1879-1904 | With either restart, every flattened piece is within `max(budget, 1800)` code units and does not end in a high surrogate. |
| Paragraphs.CharMaxChecker | Kamil.mjs:1879-1904 | Every paragraph is cut and the pieces are flattened in order. With `asWritten` the cut restarts one code unit past every cut, as the source does; otherwise it uses the corrected restart. |
| Paragraphs.MakeParagraphs | Kamil.mjs:1848-1915 | Sentences are grouped 3 per paragraph for `cmn`/`und` and 4 otherwise, then cut with the chosen restart. Every piece fits the budget. |
| JsonRepair.BracedPart | Kamil.mjs:691-696 | The braced part exists exactly when some `{` precedes some `}`. It runs from the first `{` to the last `}`. |
| JsonRepair.BlankGivesFallback | Kamil.mjs:663-673 | Missing or whitespace-only input gives the fixed fallback object. |
| JsonRepair.DirectParseWins | Kamil.mjs:675-679 | Input that parses is returned as parsed, whatever the repairer would do. |
| JsonRepair.StagesInOrder | Kamil.mjs:661-724 | For other input the result comes from the first stage that succeeds: repair of the whole, then repair of the braced part, then the fallback. |
| JsonRepair.FallbackOrParsed | Kamil.mjs:661-724 | `repairJSON` never fails. At the blank, no-braces and all-failed stages its value is one of the fixed objects; at every other stage it is a value the parser returned. |
| JsonRepair.AlwaysAnObject | Kamil.mjs:661-724 | Consequently, if the parser returns objects only, `repairJSON` always yields an object. `JSON.parse` itself also returns non-objects, which pass through unchanged. |
| Retry.RetryOutcome | Kamil.mjs:945-983 | A call is attempted at most four times. It stops at the first success, at the first error that is not retried, or after the fourth failure. |
| Retry.RetrySucceeds | Kamil.mjs:945-983 | The call succeeds exactly when some attempt within the budget succeeds and every earlier one failed with a retried error. |
| Retry.TranscribeBails | Kamil.mjs:967-975 | An error that is not a connection error or status ≥ 500 stops `transcribe` at that attempt. |
| Retry.ChatFailsOnlyAfterFourAttempts | Kamil.mjs:1179-1260 | `chat` retries every error, so it fails only after four failed attempts. |
| Retry.WithRetry | Kamil.mjs:945-983 | The loop matches the retry specification, and one read stream is opened and destroyed per attempt. |
| Retry.TranscribeFiles | Kamil.mjs:936-943 | The result succeeds exactly when every file's transcription does. It then holds one transcript per file in file order. Otherwise it carries one file's error. |
| Retry.SendToChat | Kamil.mjs:1138-1164 | The same order-preserving fan-out over chunks, with `chat`'s retry policy. A failure is reported as `Reported` describes, with the action's heading. |
| Retry.SendHeading | ss/Nagraniepraw.mjs:1292-1295 | Kamil and Nagraniaa rethrow under "Błąd wysyłania do", Nagraniepraw under "Wystąpił błąd podczas wysyłania transkrypcji do", each followed by the service and ": ". Notion-Voice-Notes has no heading: its `catch` is never reached by a chat failure. |
| Retry.Reported | Kamil.mjs:1161-1163 | Without a heading the failed call's error passes through unchanged. With one, a new error without a status carries the heading followed by the failed call's message. |
| Retry.VoiceNotesCatchUnreached | Notion-Voice-Notes.mjs:1017-1030 | As written, the schedule's promise is returned without `await`, so a chat failure reaches the caller unwrapped. |
| Retry.VoiceNotesAwaitedWraps | Notion-Voice-Notes.mjs:1024-1030 | Awaited, the failure would be rethrown without a status under "An error occurred while sending the transcript to ChatGPT: " followed by its message. |
| Retry.TranscriptionError | Kamil.mjs:822-831 | The thrown message ends with the cause. Its heading is the connection heading exactly when the cause mentions "connection error". It is the file-format heading exactly when the cause mentions "invalid file format" and not that. |
| Aggregator.Recovered | Kamil.mjs:1598-1624 | A chunk whose reading succeeds keeps its answer. A failing chunk gets the fixed fallback answer with its usage in variants that recover. |
| Aggregator.ResultsKeepOrder | ss/Nagraniepraw.mjs:1747-1773 | With recovery, reading fails only on an undefined chunk, and every result is the chunk's own reading in order. Without it, reading fails exactly when some chunk fails. |
| Aggregator.PartsInChunkOrder | Kamil.mjs:1630-1672 | A field's accumulated parts are what each truthy answer pushed, in chunk order. |
| Aggregator.ContributionsAppend | Kamil.mjs:1630-1672 | The contributions of consecutive runs of chunks concatenate. |
| Aggregator.RatingIsMax | Kamil.mjs:1658-1659 | `day_rating` is the largest rating among truthy answers, or 0 when none is positive. |
| Aggregator.RatingPublished | Kamil.mjs:1818 | An enabled rating is published as that maximum, or as 50 when no answer rated the day above 0. |
| Aggregator.TokensAdd | Kamil.mjs:1709-1712 | Usages and their sums add up over consecutive runs of chunks, so the published `tokens` is the total of every answer's usage. |
| Aggregator.AssembleFields | Kamil.mjs:1728-1841 | The final response fails exactly when one field fails. Otherwise it has exactly the fixed keys plus each field's emitted value, and leaves out the fields that emit nothing. |
| Aggregator.ResponseFields | Kamil.mjs:1728-1841 | The response holds the title from the first answer and `tokens`, the sum of usages, plus exactly the fields the table emits. |
| Aggregator.TitleFromFirst | Kamil.mjs:1628-1729 | The title depends only on the first answer, with the defaults applied in order. |
| Aggregator.DisabledFieldAbsent | Kamil.mjs:1730-1840 | A field whose option is not chosen is absent. Only the topic filter can still throw. |
| Aggregator.FieldValues | Kamil.mjs:1730-1800 | An enabled list field is the one-level flatten, or its placeholder when empty. An enabled text field is the parts joined by spaces, or its placeholder. |
| Aggregator.TopicsPublished | Kamil.mjs:1714-1772 | Published topics are non-empty entries, lowercased, deduplicated, optionally capitalised and sorted, with more than one remaining. |
| Aggregator.TopicsFailure | Kamil.mjs:1714-1726 | The topic field throws exactly when a non-string is lowercased, or when an unguarded set is read while undefined (as Notion-Voice-Notes.mjs does). |
| Aggregator.OnlyTopicsFail | Kamil.mjs:1728-1841 | No field other than the topics can make the response fail. |
| Aggregator.GuardedTopicsNeverUndefined | Kamil.mjs:1768 | With the optional-chaining guard, topics fail only on non-string entries. |
| Aggregator.PushChoice | Kamil.mjs:1633-1672 | One reduce step updates every field's accumulator with the chunk's answer. |
| Aggregator.Reduce | Kamil.mjs:1630-1700 | The reduce computes every field's fold and the usage array. |
| Aggregator.CollectResults | Kamil.mjs:1598-1624 | The loop over `summaryArray` reads every chunk in order. |
| Aggregator.FinalResponse | Kamil.mjs:1728-1841 | The final object is assembled from the title and the field table. |
| Aggregator.FormatChat | Kamil.mjs:1592-1846 | The whole `formatChat` computes its specification. |
| ChatVariants.KamilWellKeyed | Kamil.mjs:1728-1841 | Kamil's and Nagraniepraw's tables name every key once and never the title or tokens. |
| ChatVariants.NagraniaaWellKeyed | Nagraniaa.mjs:1163-1194 | Nagraniaa's table is well keyed. |
| ChatVariants.VoiceNotesWellKeyed | Notion-Voice-Notes.mjs:1344-1360 | Both Notion-Voice-Notes tables are well keyed. |
| ChatVariants.OwnRepairFailsOnlyOnShape | Kamil.mjs:1598-1624 | With Kamil's own `repairJSON`, a chunk fails to read only when its content or usage is missing. |
| ChatVariants.VoiceNotesRejectsSingleTopic | Notion-Voice-Notes.mjs:1336-1358 | As written, with "Related Topics" chosen and a single topic, `formatChat` throws. |
| ChatVariants.VoiceNotesOmitsSingleTopic | Notion-Voice-Notes.mjs:1336-1358 | With the guard, the same input leaves the topics out and keeps the token count. |
| Prompt.CreateSystemPrompt | Kamil.mjs:1273-1588 | The method fills the prompt field by field and computes the specification. |
| Prompt.InstructionParts | Kamil.mjs:1334-1458 | The loop emits one instruction per selected request, in table order, at the verbosity's bound. |
| Prompt.ExampleKeys | Kamil.mjs:1470-1570 | The loop gives the example object the title, then every table key the prompt asks for, in table order. |
| Prompt.SystemPromptShape | Kamil.mjs:1273-1588 | Nagraniaa.mjs builds the same shape. The prompt fails exactly on an unknown language, or on missing options where nothing guards them. Otherwise it is base, instructions, lock, example. The example names the title, then exactly the keys asked for, in order. The instructions are exactly those of the selected options, each at the verbosity's bound. |
| Prompt.PromptLanguages | Kamil.mjs:1287-1297 | The values are asked for in the summary language when one is set. The title is asked for in the title language, else the summary language. |
| Prompt.JournalAsksWhatIsPublished | Kamil.mjs:1334-1458 | Kamil's prompt asks for a key exactly when its `formatChat` publishes that key for the same options. |
| Prompt.TablesDistinct | Nagraniaa.mjs:943-1007 | Every prompt table asks for each key at most once. |
| Prompt.UserPromptKeepsTranscript | Kamil.mjs:1263-1271 | The user prompt ends with the transcript, and different transcripts give different prompts. |
| Adapter.Adapt | Kamil.mjs:1231-1250 | The rewrapped response carries the message's id, model and first text block. Its total tokens are input plus output. It fails on a message without content. |
| Adapter.AdaptedUsage | ss/Nagraniepraw.mjs:1348-1365 | `formatChat` reads the adapted text and the summed usage. |
| Adapter.PromptErrorFailsEveryAttempt | Kamil.mjs:1179-1190 | A system prompt that throws fails all four attempts. |
| Adapter.PromptFirstChat | Nagraniaa.mjs:800-839 | Nagraniaa and Nagraniepraw build the system message before `chat`'s retry. If it throws, the chunk fails with that error and no attempt is made. Otherwise the chunk gets `chat`'s retried attempts with the built prompt. |
| Adapter.RecordingAnthropicAlwaysFails | Nagraniaa.mjs:864-882 | As written, Nagraniaa's chunk call with Anthropic always fails, whatever the service answers. It takes four attempts, or none when the system message throws. |
| Adapter.AdaptedAnthropicSucceeds | Nagraniaa.mjs:838-892 | With the adapter, an Anthropic answer with content succeeds at the first attempt. |
| Adapter.UnknownServiceRejectsSummary | Kamil.mjs:1196-1254 | An unknown service resolves `chat` to `undefined`, and `formatChat` then rejects. |
| Cost.TranscriptCost | Kamil.mjs:1917-1955 | It fails exactly on a missing duration that must not be missing, or a missing model. Otherwise it is minutes times the looked-up rate, and 0 when the rate is missing. |
| Cost.ChatCost | Kamil.mjs:1957-1988 | It fails exactly on missing or zero token counts, a missing model or a missing service. Otherwise it is the prompt and completion tokens, in thousands, priced at the rates found, and 0 when no rate is found. |
| Cost.ServiceDefaultsToOpenAI | Kamil.mjs:1930 | The transcription service is priced the same whatever case it is written in. A missing or empty service is priced as OpenAI. |
| Cost.TokensAdd | Kamil.mjs:2807-2818 | Pricing summed usage equals summing the prices of its parts. |
| Cost.ChatModel | Notion-Voice-Notes.mjs:1503-1513 | The model name is normalised by the first matching substring, in source order, to a priced model. |
| Cost.ChatModelPriced | Notion-Voice-Notes.mjs:42-73 | Every normalised model has a prompt rate. |
| Cost.VoiceNotesChatCost | Notion-Voice-Notes.mjs:1489-1530 | It fails exactly on bad usage or a missing model. Otherwise it is the normalised model's rates applied. |
| Cost.VoiceNotesTranscriptCost | Notion-Voice-Notes.mjs:1457-1488 | A missing duration costs 0 unless that is forbidden. Otherwise the cost is minutes times the model's per-minute rate. |
| Cost.VoiceNotesMinutePrices | Notion-Voice-Notes.mjs:1457-1488 | For every model in the rate table, a minute costs that model's listed rate. The costs of two durations add up. An unknown duration costs 0, or fails when the run is set to stop on it. |
| RunSettings.MaxTokens | Kamil.mjs:599-605 | The budget is the density setting, else 5000 for Anthropic and 2750 otherwise. It always leaves the 100-token search window. |
| RunSettings.LargeModelsAdmitLargeDensity | Notion-Voice-Notes.mjs:2386-2402 | Every model given the 5000 default is one the density setting (lines 355-368) admits 5000 for. |
| RunSettings.VoiceNotesMaxTokens | Notion-Voice-Notes.mjs:2386-2402 | The budget is the density setting, else 5000 for gpt-4-32k, gpt-4 and gpt-3.5-turbo-16k, and 2750 otherwise. |
| RunSettings.ChatInput | Kamil.mjs:2779-2786 | Only the first chunk is sent when no option is chosen, and every chunk in order otherwise. Notion-Voice-Notes throws on unset options. |
| RunSettings.SentChunksCover | Kamil.mjs:2768-2786 | With options chosen, the chunks sent concatenate to the transcript's tokens. |
| RunSettings.SummaryCostAdds | Kamil.mjs:2807-2818 | The summed usage is priced as the sum of the calls' prices. |
| Segmenter.ChunkMB | Kamil.mjs:626-634 | The chunk size is the setting within 10-50 MB, else 24. |
| Segmenter.SingleChunk | Kamil.mjs:840-846 | There is one chunk exactly when the file is non-empty and fits the chunk size. |
| Segmenter.DurationRoundTrip | Kamil.mjs:861-880 | A printed `HH:MM:SS.cc` stamp is read back as the same number of hundredths. |
| Segmenter.FirstStampWins | Kamil.mjs:861 | With two stamps, the first is read. |
| Segmenter.SegmentsFitCount | Kamil.mjs:879-882 | The segment time is ceil(duration / count), so the segments cover the recording in at most `count` pieces. |
| Segmenter.SegmentNamesDistinct | Kamil.mjs:886-894 | Segment names are `chunk-` plus a 3-digit index, and distinct indices give distinct names. |
| Segmenter.ChunkFileCopies | Kamil.mjs:844-846 | The file is copied whole, as segment 0, exactly when it fits one chunk. |
| Segmenter.ChunkFileFails | Kamil.mjs:859-915 | Otherwise it fails exactly in three cases: Notion-Voice-Notes' `grep` keeps no line; the probe shows no duration; or the split exits non-zero. |
| Segmenter.ChunkFileSegments | Kamil.mjs:835-934 | A planned split covers the recording with at least two and at most `count` segments. |
| Segmenter.Rejection | Notion-Voice-Notes.mjs:561-595 | `chunkFile` resolves exactly on a planned copy or split. Notion-Voice-Notes rejects with `exec`'s error when the probe or split command fails. A probe line without a stamp rejects with the message of the failed `[0]` read. The Polish variants (Kamil.mjs lines 863-915) reject with their own texts, and a failed split carries the process's stderr. |
| Segmenter.SplittingError | Kamil.mjs:814-818 | The split error is wrapped with its Polish heading. |
| SizeGuard.SizeCheck | Kamil.mjs:726-741 | It throws above the hard limit, or above the plan limit for an attachment where the variant throws. It reports an over-plan attachment where the variant only flags it. |
| SizeGuard.PlanOnlyMattersForAttachments | Notatka.mjs:727-742 | Without an attachment the plan never matters. With one, the free plan's limit applies. |
| SizeGuard.FreePlanIsStricter | ss/Nagraniepraw.mjs:679-698 | A file over the limit on another plan is over the free plan's limit. |
| SizeGuard.Config.CheckSize | ss/Nagraniepraw.mjs:679-698 | The method throws as `SizeCheck` does. Otherwise it sets the too-large flag when the check reports it and keeps it otherwise. |
| SizeGuard.Mime | Notatka.mjs:763 | The extension is the trailing `.` and word characters of the path, absent when there is none. |
| SizeGuard.SanitiseClean | Notatka.mjs:768 | Sanitising leaves a name with no forbidden character unchanged. |
| SizeGuard.SanitiseIdempotent | Notatka.mjs:768 | Sanitising twice is sanitising once. |
| SizeGuard.DownloadToTmp | Notatka.mjs:761-780 | It fails, with the download heading, on a missing or unsupported extension or a failed fetch. Otherwise the path is `/tmp/` plus the sanitised last segment. |
| SizeGuard.TemporaryNameKeepsExtension | Notatka.mjs:763-768 | The temporary path keeps the file's extension. |
| WebVtt.SplitJoin | Notion-Voice-Notes.mjs:756-780 | Splitting at newlines and joining with newlines are inverse. |
| WebVtt.Classify | Notion-Voice-Notes.mjs:762-773 | A line is a cue timing exactly when it matches the timing pattern. A voice tag names a non-empty speaker found in the line. |
| WebVtt.FormatLineCases | Notion-Voice-Notes.mjs:762-777 | A cue line keeps only its text before " --> ". A voice line becomes the speaker, ": " and the trimmed words. Any other line is trimmed. |
| WebVtt.FormatLines | Notion-Voice-Notes.mjs:759-778 | The loop rewrites every line in order. |
| WebVtt.FormatWebVTT | Notion-Voice-Notes.mjs:754-782 | The output has exactly one line per input line, each the rewrite of that line. |
| JsText.Trim | Notion-Voice-Notes.mjs:760 | The trimmed text is a slice of the input with only whitespace before and after it, and it neither starts nor ends with whitespace. It is empty exactly for blank input. |
| JsText.Utf16WellFormed | Kamil.mjs:1906-1908 | Encoding text to UTF-16 pairs every high surrogate with a following low surrogate. |
| TextOrder.SortCorrect | Kamil.mjs:1771 | `.sort()` orders by code units and is a permutation. |
| TextOrder.DedupeSound | Kamil.mjs:1722-1724 | `new Set` keeps each value once, and exactly the values given. |
| Paths.Extname | Kamil.mjs:837 | The extension is a suffix starting with `.` and lies within the base name. |
| Json.FlatAppend | Kamil.mjs:1715 | `.flat()` distributes over concatenation. |

`ChatVariants.KamilTopicsExample` is a worked example rather than a
property: Kamil publishes the topics "Zen", "ai" and "AI" as "Ai", "Zen",
as `Aggregator.TopicsPublished` describes for all inputs.

## Left out

- Notion publishing (page creation, updates, block batching), the action's
  UI properties, and every SDK call beyond the result values they hand back.
- Moderation calls, translation and language detection (`franc`,
  `natural.SentenceTokenizer`, `helpers/translate-transcript.mjs`). The
  paragraph builder takes the sentence list and language code as inputs.
- The GPT tokenizer: tokens are abstract, with "is a period" a parameter.
- Bottleneck concurrency, `minTime` spacing and `async-retry` timing. The
  fan-out is an order-preserving sequential map. Retry keeps only the
  attempt and bail logic.
- ffmpeg/ffprobe subprocesses and `fs` operations. `chunkFile` takes the
  probe output, exit code and stderr as inputs.
- `helpers/common.mjs` is not part of this model. The `repairJSON` it
  supplies to Nagraniepraw and Notion-Voice-Notes is a parameter of their
  chunk reader.
- `helpers/model-info.mjs` is not part of this model. `MODEL_INFO` is a
  price table parameter.
- `helpers/languages.mjs` is not part of this model. The language list is
  a parameter.
- `toFixed` formatting and `hrtime` stage timings.
- Notatka's `run`, a placeholder that returns its configuration.
- Nagraniepraw's custom prompts stored through `$.service.db`.
- The prose of the prompt parts and their join with blank lines. Each part
  keeps what varies in it: key, length bound and languages.
- JSON numbers with fractions. `day_rating` and usages are integers.
- Case mapping beyond Latin-1 and Latin Extended-A.
- The message of a failed Notion-Voice-Notes probe or split. It comes from
  Node's `exec` and names the command line; `Segmenter.Rejection` gives it as
  `ExecRejects`.
- Errors are modelled by their `message`, the part the actions read
  (`error.message`).
- Aggregator.RatingOf: a `day_rating` that is not a number counts as 0. The
  source keeps the raw value (`|| 0`) and compares it with JavaScript's `>`.
  A string such as "85" or the value `true` is then stored and published
  as it is. JavaScript's mixed-type comparison is not modelled.
- Aggregator.RatingIsMax: states the maximum only over number ratings;
  any rating that is not a number is taken as 0 (see RatingOf above).
- Aggregator.RatingPublished: publishes 50 where the source publishes a
  truthy rating that is not a number (for example "85") as it is.
- Deepgram transcription (`transcribeDeepgram`). Its transcript is an input.
- Paragraphs.CutElement: requires a budget of at least 2 code units. The
  action passes 1200, or 1800 when it cuts for moderation
  (Kamil.mjs:1104); both are at least 2. With a budget of 1, a surrogate pair leaves no
  room to back off.
- Retry.RetryOutcome: the error of an exhausted retry is the last
  attempt's. `async-retry` rejects with its main error, the most frequent
  message among the attempts (the later one on a tie). A call failing with
  "read ECONNRESET" three times and then "Connection error." is reported
  by the source as "read ECONNRESET".
- Aggregator.FormatChat: a chunk that throws in a variant without
  recovery rejects with the stand-in message `ChunkFailed`. The source
  rethrows the chunk's own error, a `TypeError` on an undefined answer or
  usage or the parser's error.
- Retry.WithRetry: counts the read streams opened and destroyed, but not
  the order of `finally` relative to the retry decision.

## Findings

| source | as written | input that shows it | evidently intended | confidence | as-written member | corrected member |
|---|---|---|---|---|---|---|
| Kamil.mjs:1899 (also ss/Nagraniepraw.mjs, Notion-Voice-Notes.mjs) | `currentIndex = nextSpaceIndex + 1` skips one code unit after every cut, even when the cut is not at a space (hard cut or surrogate back-off) | "abcdef" with `maxSize` 2 gives ["ab", "de"] | skip the separator only when the cut is at a space, so no text is lost | not executed | Paragraphs.HardCutDropsText | Paragraphs.PiecesLossless |
| Notion-Voice-Notes.mjs:1336-1358 | `filtered_related_set.length` is read while the set is still `undefined` | "Related Topics" chosen and one chunk answering a single topic | `filtered_related_set?.length`, as in Kamil, leaving the topics out | not executed | ChatVariants.VoiceNotesRejectsSingleTopic | ChatVariants.VoiceNotesOmitsSingleTopic |
| Notion-Voice-Notes.mjs:1017-1030 | `limiter.schedule(...)` is returned without `await`, so the `catch` never wraps a chat failure | any chunk whose four attempts fail | await the schedule, so the failure is rethrown under "An error occurred while sending the transcript to ChatGPT: " | not executed | Retry.VoiceNotesCatchUnreached | Retry.VoiceNotesAwaitedWraps |
| Nagraniaa.mjs:864-882 | the Anthropic message is returned without rewrapping, so `response.choices[0]` throws | service "Anthropic" with any answer | rewrap as the other actions do (`content[0].text`, summed usage) | not executed | Adapter.RecordingAnthropicAlwaysFails | Adapter.AdaptedAnthropicSucceeds |
