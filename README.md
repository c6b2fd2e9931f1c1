# ai_services decision logic in Dafny

This project models the decision logic around the model servers of the
ai_services repository, with the servers, the network, the clock and the ML
libraries taken out and passed in as inputs:

- **ChatBench** (`qwen-3dot5-vllm/test_chat.py`) is the streaming chat
  benchmark. `Benchmark` is one pass over the stream chunks. It keeps two
  one-shot timestamp latches, two fragment buffers and a last-usage-wins slot,
  then derives TTFT, thinking time, total time, token count and tokens per
  second. `RunBenchmarks` is the run loop and the averaging of `main`.
- **ToolTest** (`qwen-3dot5-vllm/test_tools.py`) is the tool-calling test:
  - the simulated tool executor;
  - the message list each scenario grows (one assistant message, then one tool
    message per call);
  - the single, parallel and chained (at most four turns) scenarios;
  - the scenario selection and the pass counting of `main`.
- **WhisperServer** (`whisper/app.py`) is the cache of `WhisperModelManager`:
  a map keyed by model name, filled on demand. Names resolve against the alias
  table, with a reverse lookup of the default id. It also covers the duration
  and speed figures of the transcription route.
- **VoiceChat** (`demoapp/demoapp.py`) is `response_on_pause` of the voice
  demo: the system prompt, the chat-to-LLM conversion, the emotion-tag
  sanitising, the sentence split `re.split(r'(?<=[.!?]) +', reply)`, and the
  outputs the generator yields.
- **WhisperRest** (`demoapp/source/whisperclient.py`) is the Whisper HTTP
  client: URL normalisation, headers, form fields, the file-argument dispatch
  and the response wrapper.
- **OrpheusRest** (`demoapp/source/orpheusclient.py`) is the Orpheus HTTP
  client: URL and endpoints, the empty-text guard, the voice and output-path
  defaults, the payload, `say`, and the voice-list fallback.
- **Strings**, **Wrappers** and **JsonValues** hold the Python built-ins the
  code relies on, Option/Result, and decoded JSON. The built-ins are `split()`,
  `split(sep)`, `replace`, `strip`, `join`, `endswith` and `str(int)`.

Stateful parts are classes or methods with loops, each specified by a function
of its inputs:
- the cache manager and the two clients are classes;
- the benchmark loop, the scenario loops, the tag loop and the message loops
  are methods with `while`/`for` loops.

Inputs replace the outside world:
- the stream chunks carry clock readings;
- each model reply is `Ok(reply)` or `Err(message)` when the request raised;
- each HTTP response is the decoded answer or the library's error;
- environment variables are `Option<string>` parameters.

Two facts about the benchmark code that the proofs make explicit:
- `think_chars` is the length of the joined reasoning. In the end-to-end
  stream whose reasoning deltas are "Let" and " me think" it is
  `len("Let me think")`, which is 12 (`ChatBench.EndToEnd`).
- Nothing orders the two latches: a reasoning delta may first arrive after the
  first answer token, and then `think_s` is negative
  (`ChatBench.LateReasoningNegativeThink`). The non-negativity of `think_s`
  (`ChatBench.DurationsNonNegative`) is proved with that ordering as a
  hypothesis.

## Model

| member | source | states |
|---|---|---|
| `ChatBench.Benchmark` | qwen-3dot5-vllm/test_chat.py:29-110 | The loop's result is `Summary` of the stream: the first-reasoning and first-answer latches, the collected fragments, the last usage, and the derived figures. |
| `ChatBench.CompletionTokens` | qwen-3dot5-vllm/test_chat.py:98-100 | The last usage count when one arrived, otherwise the number of whitespace-separated words of the answer. |
| `ChatBench.Rate` | qwen-3dot5-vllm/test_chat.py:97-101 | Tokens per second times the total time gives back the token count when the total is positive; otherwise 0; never negative. |
| `ChatBench.FirstWhere` | qwen-3dot5-vllm/test_chat.py:57-71 | Reference definition: the index of the first chunk satisfying a test, and None exactly when no chunk does. |
| `ChatBench.LatchIsFirst` | qwen-3dot5-vllm/test_chat.py:57-71 | Each latch holds the time of the first chunk with a non-empty fragment or content, and is empty when there is none. |
| `ChatBench.LatchStable` | qwen-3dot5-vllm/test_chat.py:58-59 | Once a latch is set, no further chunks change it. |
| `ChatBench.CollectedAppend` | qwen-3dot5-vllm/test_chat.py:63-82 | The fragments collected over two stretches of stream are those of each stretch, in order. |
| `ChatBench.AnswerTextAppend` | qwen-3dot5-vllm/test_chat.py:82-94 | The answer of a concatenated stream is the concatenation of the answers. |
| `ChatBench.AnswerTextIgnoresEmpty` | qwen-3dot5-vllm/test_chat.py:51-69 | A chunk without choices, or with empty content, adds nothing to the answer. |
| `ChatBench.AnswerTextIsAllContent` | qwen-3dot5-vllm/test_chat.py:68-94 | The answer text is the in-order concatenation of every chunk's content. |
| `ChatBench.ThinkCharsIsSum` | qwen-3dot5-vllm/test_chat.py:55-63 | `think_chars` is the sum of the lengths of the per-chunk fragments, each being `reasoning`, or `reasoning_content` when `reasoning` is empty. |
| `ChatBench.LastUsageAppend` | qwen-3dot5-vllm/test_chat.py:86-87 | A later usage report overrides every earlier one. |
| `ChatBench.LastUsageNone` | qwen-3dot5-vllm/test_chat.py:86-87 | The usage slot stays empty exactly when no chunk carries usage. |
| `ChatBench.TtftPresence` | qwen-3dot5-vllm/test_chat.py:95 | With positive clock readings, `ttft_s` is absent exactly when no answer token arrived, and is otherwise the first answer time minus the start. |
| `ChatBench.ThinkPresence` | qwen-3dot5-vllm/test_chat.py:96 | With positive clock readings, `think_s` is present exactly when both latches are set, and is their difference. |
| `ChatBench.NoAnswerNoThink` | qwen-3dot5-vllm/test_chat.py:95-96 | A stream without answer content has neither `ttft_s` nor `think_s`. |
| `ChatBench.DurationsNonNegative` | qwen-3dot5-vllm/test_chat.py:95-97 | On a monotonic clock, if reasoning starts no later than the answer: total ≥ 0, 0 ≤ TTFT ≤ total, and 0 ≤ thinking time ≤ TTFT. |
| `ChatBench.LateReasoningNegativeThink` | qwen-3dot5-vllm/test_chat.py:96 | A reasoning chunk after the first answer chunk gives a negative `think_s`. |
| `ChatBench.WordFallbackCounts` | qwen-3dot5-vllm/test_chat.py:98-100 | Without usage, "alpha beta gamma" counts 3 tokens; a usage report of 10 wins over the word count. |
| `ChatBench.ReasoningOnlyStream` | qwen-3dot5-vllm/test_chat.py:94-110 | Reasoning only and no usage: no TTFT, 0 tokens, rate 0, and 3 reasoning characters. |
| `ChatBench.EndToEnd` | qwen-3dot5-vllm/test_chat.py:29-110 | The concrete stream of two reasoning deltas, three answer deltas and usage 5 gives TTFT 0.12, think 0.12, 12 characters, total 0.2, 5 tokens and 25 tok/s. |
| `ChatBench.AverageTpsBounded` | qwen-3dot5-vllm/test_chat.py:156 | The average rate lies between the smallest and the largest rate of the successful runs. |
| `ChatBench.SumTpsBounds` | qwen-3dot5-vllm/test_chat.py:156 | The summed rate lies between n·lo and n·hi. |
| `ChatBench.SumTtftAllPresent` | qwen-3dot5-vllm/test_chat.py:155 | When every run has a TTFT, the TTFT sum is the plain sum over all runs. |
| `ChatBench.MissingTtftDilutesAverage` | qwen-3dot5-vllm/test_chat.py:155-156 | A run without TTFT still counts in the divisor: 0.2 s and absent average to 0.1 s. |
| `ChatBench.RunBenchmarks` | qwen-3dot5-vllm/test_chat.py:130-159 | Failed runs are dropped and the rest kept in order. Exit status is 1 exactly when nothing succeeded. Averages exist exactly for several runs with a success, and are the means over the successes. |
| `ChatBench.SuccessesInOrder` | qwen-3dot5-vllm/test_chat.py:136-138 | Never more results than runs; when every run succeeds, the results are all of them, in run order. |
| `ToolTest.ToFahrenheit` | qwen-3dot5-vllm/test_tools.py:83-84 | `temp * 9 // 5 + 32` is the Fahrenheit value rounded down: (f−32)·5 ≤ 9c < (f−31)·5. |
| `ToolTest.ExecuteTool` | qwen-3dot5-vllm/test_tools.py:78-100 | Weather echoes the city (default "Unknown") with "partly cloudy" and "65%". `calculate` records its expression. Any other name gives "Unknown tool: " + name. |
| `ToolTest.WeatherTemperature` | qwen-3dot5-vllm/test_tools.py:81-85 | "celsius" gives the table number with "°C", "fahrenheit" the converted number with "°F", and any other unit the Celsius number labelled "°F". |
| `ToolTest.DegreesPositive` | qwen-3dot5-vllm/test_tools.py:82-87 | Every temperature the tool can report is positive, so it prints without a sign. |
| `ToolTest.TokyoCelsius` | qwen-3dot5-vllm/test_tools.py:80-87 | Tokyo with default units reports "22°C". |
| `ToolTest.TokyoFahrenheit` | qwen-3dot5-vllm/test_tools.py:83-87 | Tokyo in Fahrenheit reports "71°F". |
| `ToolTest.NewYorkFahrenheit` | qwen-3dot5-vllm/test_tools.py:83-87 | New York in Fahrenheit reports "64°F". |
| `ToolTest.LondonKelvin` | qwen-3dot5-vllm/test_tools.py:83-85 | An unrecognised unit reports London as "15°F". |
| `ToolTest.NoArguments` | qwen-3dot5-vllm/test_tools.py:80-89 | No arguments gives city "Unknown" at "20°C". |
| `ToolTest.ToolMessages` | qwen-3dot5-vllm/test_tools.py:151-155 | One tool message per call. |
| `ToolTest.ToolMessagesShape` | qwen-3dot5-vllm/test_tools.py:151-155 | The k-th tool message answers the k-th call, with its id and its executed result. |
| `ToolTest.ToolMessagesAppend` | qwen-3dot5-vllm/test_tools.py:234-238 | One more call appends exactly its tool message. |
| `ToolTest.TurnShape` | qwen-3dot5-vllm/test_tools.py:233-238 | A turn with k calls adds k + 1 messages: the assistant message, then one tool message per call in call order with the matching `tool_call_id`. |
| `ToolTest.AppendTurn` | qwen-3dot5-vllm/test_tools.py:233-238 | The loop's message list is the old one followed by the turn's messages. |
| `ToolTest.ToolRoundTrip` | qwen-3dot5-vllm/test_tools.py:127-160 | A raised first request propagates. A reply without tool calls fails with only the prompt sent. Otherwise the turn is appended, and the scenario passes exactly when the follow-up does not raise. |
| `ToolTest.ScenarioSingle` | qwen-3dot5-vllm/test_tools.py:127-160 | Passes exactly when the first reply calls a tool and the follow-up answers; fails exactly when the first reply has no tool calls. |
| `ToolTest.ScenarioParallel` | qwen-3dot5-vllm/test_tools.py:163-204 | The same verdicts as the single scenario: fewer than two calls only warns. |
| `ToolTest.TranscriptAppend` | qwen-3dot5-vllm/test_tools.py:233-238 | One more tool turn appends exactly its turn messages to the chained transcript. |
| `ToolTest.TranscriptLength` | qwen-3dot5-vllm/test_tools.py:210-238 | After n tool turns the transcript holds the prompt, n assistant messages and one message per tool call. |
| `ToolTest.ScenarioChained` | qwen-3dot5-vllm/test_tools.py:207-241 | At most four requests. It stops at the first reply without tool calls (pass) or that raised (error). It fails exactly when all four replies asked for tools. The messages are the prompt plus every tool turn made. |
| `ToolTest.Select` | qwen-3dot5-vllm/test_tools.py:271-275 | "all" selects the three scenarios in map order; a known name selects only its scenario; anything else is rejected. |
| `ToolTest.SelectChoices` | qwen-3dot5-vllm/test_tools.py:259-264 | Exactly "all", "single", "parallel" and "chained" are accepted. |
| `ToolTest.CountPassedBound` | qwen-3dot5-vllm/test_tools.py:277-288 | Never more passes than scenarios, and as many exactly when every scenario passed. |
| `ToolTest.CountPasses` | qwen-3dot5-vllm/test_tools.py:277-288 | The counter is the number of passes; the exit code is 0 exactly when all passed. |
| `ToolTest.RunTests` | qwen-3dot5-vllm/test_tools.py:255-288 | A rejected choice exits 2; otherwise the exit code is 0 when every selected scenario passed and 1 when one did not, an exception counting as not passed. |
| `WhisperServer.ModelNames` | whisper/app.py:33-39 | The alias table's names, in table order. |
| `WhisperServer.Lookup` | whisper/app.py:54-55 | `available_models[name]`: present exactly when the name is a key, and then that entry's id. |
| `WhisperServer.KeyFor` | whisper/app.py:59 | `next(...)`: the first name whose id is the default id, or "large" when no entry has it. |
| `WhisperServer.Resolve` | whisper/app.py:53-59 | A table name gives its own id. Anything else gives the default id, cached under a table name that names that id, or under "large" when none does. |
| `WhisperServer.FallbackKey` | whisper/app.py:56-59 | The cache name for the default id is always a table name, and names that id when the table holds it. |
| `WhisperServer.AliasesDistinct` | whisper/app.py:33-39 | The table's names, and its ids, are pairwise distinct. |
| `WhisperServer.ResolveAlias` | whisper/app.py:54-55 | Each table name resolves to its own table entry. |
| `WhisperServer.ResolveAliases` | whisper/app.py:33-39 | tiny, base, small, medium and large resolve to their five ids. |
| `WhisperServer.ResolveFallback` | whisper/app.py:56-59 | A missing, empty or unknown name falls back to the default id; with the stock default, under "large". |
| `WhisperServer.LargeKeyShared` | whisper/app.py:57-64 | With a default id outside the table, the default request and an explicit "large" share the cache key "large" for different ids. |
| `WhisperServer.DistinctCardinality` | whisper/app.py:109-111 | A list without repetitions has as many distinct elements as entries. |
| `WhisperServer.ModelManager.constructor` | whisper/app.py:30-40 | The cache starts empty, and the default id is `WHISPER_MODEL_ID` or "openai/whisper-large-v3". |
| `WhisperServer.ModelManager.GetModelPipeline` | whisper/app.py:42-103 | A cached name returns its entry and changes nothing. Otherwise the resolved id is loaded and the cache gains exactly that name, appended to the insertion order. The cache stays valid: keys are table names, entries were loaded from their ids. |
| `WhisperServer.ModelManager.Startup` | whisper/app.py:117-121 | After start-up the default model's name is cached. If it was cached before, nothing changed. Otherwise the default id was loaded under that name, appended to the insertion order, and every other entry is unchanged. |
| `WhisperServer.ModelManager.ListLoaded` | whisper/app.py:109-111 | Exactly the cached names, each once, in insertion order; as many as the cache has entries. |
| `WhisperServer.ModelManager.ListAvailable` | whisper/app.py:105-107 | The five table names in table order, whatever is loaded. |
| `WhisperServer.CacheBounded` | whisper/app.py:54-96 | The cache never holds more entries than the alias table. |
| `WhisperServer.ShadowedLarge` | whisper/app.py:57-64 | With a default id outside the table, an explicit "large" after start-up gets the default model, not whisper-large-v3. |
| `WhisperServer.AudioLength` | whisper/app.py:173 | Frames over sample rate; a zero rate raises. |
| `WhisperServer.TranscriptionSpeed` | whisper/app.py:185 | Audio length over duration when the duration is positive, else 0; never negative for a non-negative length. |
| `WhisperServer.TranscribeAudio` | whisper/app.py:148-197 | The model is fetched first, with the cache effect of `get_model_pipeline`: a cached name leaves cache and load order unchanged, otherwise exactly the resolved id is loaded under the resolved name and appended, and a response then reports that id. A decode failure, a zero sample rate, or a pipeline call that raises or yields no "text" gives a 500. Otherwise the response carries the text, the length, the speed and the id of the cached model. |
| `VoiceChat.PromptListsTags` | demoapp/demoapp.py:106-121 | The prompt is the fixed text, then each tag unchanged at its place in the ", "-joined list, then ".". |
| `VoiceChat.ToLlmMessages` | demoapp/demoapp.py:124-129 | The system message first, then one message per chat entry, in order, with its role and content. |
| `VoiceChat.ConvertsChatIgnoresKind` | demoapp/demoapp.py:125-129 | Dict entries and message objects convert alike. |
| `VoiceChat.SanitizeReply` | demoapp/demoapp.py:133-136 | Each tag removed in dictionary order, then whitespace stripped, so no whitespace at either end. |
| `VoiceChat.RemoveTagsShorter` | demoapp/demoapp.py:134-135 | Removing tags never lengthens the reply. |
| `VoiceChat.TagPassDeletesEveryMatch` | demoapp/demoapp.py:134-135 | Each tag's pass deletes every occurrence its left-to-right scan meets: the text before the pass is the pieces joined by the tag, no occurrence starts inside a piece, the result is the pieces run together, and the pass changes the text exactly when the tag occurs. |
| `VoiceChat.RemoveTagsWithoutBracket` | demoapp/demoapp.py:134-135 | A reply containing no "<" is unchanged by the tag loop. |
| `VoiceChat.SanitizeWithoutTags` | demoapp/demoapp.py:133-136 | A reply without "<" is only stripped. |
| `VoiceChat.InnerTagRemoved` | demoapp/demoapp.py:134-135 | Deleting a tag from a tag wrapped around a copy of itself leaves the tag, when no match starts earlier. |
| `VoiceChat.NestedTagSurvives` | demoapp/demoapp.py:134-135 | One left-to-right pass of `replace` turns "<sig<sigh>h>" into "<sigh>". |
| `VoiceChat.FirstBreakFrom` | demoapp/demoapp.py:141 | The first position from i where a terminator is followed by a space, or None when there is none. |
| `VoiceChat.SpaceRun` | demoapp/demoapp.py:141 | The greedy ` +`: the whole run of spaces at a position. |
| `VoiceChat.SplitStep` | demoapp/demoapp.py:141 | One match: the first sentence, its separator, and the split of the rest. |
| `VoiceChat.SentencesRejoin` | demoapp/demoapp.py:141 | One more sentence than separators, and interleaving them restores the raw reply exactly. |
| `VoiceChat.SentencesEndInTerminators` | demoapp/demoapp.py:141 | Every sentence but the last is non-empty and ends in '.', '!' or '?'. |
| `VoiceChat.LaterSentencesNoLeadingSpace` | demoapp/demoapp.py:141 | No sentence after the first begins with a space. |
| `VoiceChat.SentencesHaveNoBreak` | demoapp/demoapp.py:141 | No sentence contains a terminator followed by a space. |
| `VoiceChat.SeparatorsAreSpaces` | demoapp/demoapp.py:141 | Every separator is a non-empty run of plain spaces; tabs and newlines never separate. |
| `VoiceChat.LastSentenceIsSuffix` | demoapp/demoapp.py:141 | The last sentence is the reply's suffix from `LastStart`. |
| `VoiceChat.LastStartAfterSpace` | demoapp/demoapp.py:141 | When the reply splits, the last sentence is preceded by a space. |
| `VoiceChat.LastSentenceNonEmpty` | demoapp/demoapp.py:141 | A non-empty reply that does not end in a space has a non-empty last sentence. |
| `VoiceChat.SentencesExample` | demoapp/demoapp.py:141 | "Hi!  Go." splits into "Hi!" and "Go." with the single separator "  ". |
| `VoiceChat.EmptyPieces` | demoapp/demoapp.py:141 | "Hi. " splits into "Hi." and ""; "" is one empty piece. |
| `VoiceChat.SpokenPrefix` | demoapp/demoapp.py:144-147 | The number of leading sentences that produce audio before the first that does not. |
| `VoiceChat.SpeakAsWritten` | demoapp/demoapp.py:144-149 | As written: the loop breaks exactly when some sentence yields no audio, after one clip per sentence before it. |
| `VoiceChat.TrailingSeparatorCrashes` | demoapp/demoapp.py:141-147 | A reply ending in ". ", or an empty reply, has a sentence that yields no audio. |
| `VoiceChat.VoicedCount` | demoapp/demoapp.py:144-149 | At most one clip per sentence, in order; exactly one per sentence when every sentence has audio. |
| `VoiceChat.Speak` | demoapp/demoapp.py:144-149 | The guarded loop yields the clips of the voiced sentences, in order. |
| `VoiceChat.SpeakAgreesWhenAllVoiced` | demoapp/demoapp.py:144-149 | When every sentence has audio, the written loop and the guarded loop yield the same number of clips, one per sentence. |
| `VoiceChat.Exchange` | demoapp/demoapp.py:101-137 | The LLM sees the system prompt and the chat with the transcript; the chat gains the transcript and the sanitised reply; the raw reply is returned. |
| `VoiceChat.ResponseOnPause` | demoapp/demoapp.py:76-149 | As written: the chat gains the user transcript and then the sanitised reply, with a silent frame after each. Then come the clips of the raw reply's sentences (tags included), shown with the final chat, up to the first sentence without audio, where the call raises. It raises exactly when some sentence has no audio. When every sentence has audio it ends normally with 2 + (number of sentences) outputs. |
| `VoiceChat.ResponseOnPauseGuarded` | demoapp/demoapp.py:76-149 | Corrected: the same chat and silent frames, then the clips of the voiced sentences in order, and no error. |
| `WhisperRest.Or` | demoapp/source/whisperclient.py:22-23 | Python's `x or y` on an optional string. |
| `WhisperRest.ResolveApiKey` | demoapp/source/whisperclient.py:23 | The argument key when non-empty, otherwise the environment's (possibly none). |
| `WhisperRest.BaseUrlSlash` | demoapp/source/whisperclient.py:22-27 | Exactly one trailing '/' is removed: "x" and "x/" give "x", "x//" gives "x/". |
| `WhisperRest.BaseUrlDefault` | demoapp/source/whisperclient.py:22-27 | No URL gives http://localhost:8000; an empty argument defers to the environment. |
| `WhisperRest.FormData` | demoapp/source/whisperclient.py:66-77 | Always model and response_format. Language and prompt only when non-empty. Temperature whenever given. No other field. |
| `WhisperRest.ZeroTemperatureSent` | demoapp/source/whisperclient.py:72-77 | A temperature of 0 is sent; an empty language is not. |
| `WhisperRest.NameEnd` | demoapp/source/whisperclient.py:88-91 | Where the last part that pathlib keeps ends: after it only empty and "." parts follow, and the part ending there is neither empty nor ".". |
| `WhisperRest.BaseName` | demoapp/source/whisperclient.py:88-91 | `Path(p).name`: a whole part of the path, without '/' and never ".", followed only by empty and "." parts, so a trailing '/' or "/." is ignored. |
| `WhisperRest.BaseNameEmpty` | demoapp/source/whisperclient.py:88-91 | The name is "" exactly when every part of the path is empty or ".". |
| `WhisperRest.BaseNameOfFile` | demoapp/source/whisperclient.py:88-91 | "audio/speech.wav" gives "speech.wav". |
| `WhisperRest.BaseNameTrailingSlash` | demoapp/source/whisperclient.py:88-91 | "a/b/" gives "b": a trailing '/' is ignored. |
| `WhisperRest.BaseNameTrailingDot` | demoapp/source/whisperclient.py:88-91 | "a/." gives "a": a trailing "." part is ignored. |
| `WhisperRest.BaseNameParent` | demoapp/source/whisperclient.py:88-91 | "a/.." gives "..": a ".." part is kept. |
| `WhisperRest.BaseNameRoot` | demoapp/source/whisperclient.py:88-91 | "/" gives "". |
| `WhisperRest.FilePartAsWritten` | demoapp/source/whisperclient.py:80-93 | As written, in test order: a 2-tuple sends only its first element; a readable object is sent as-is; a path to a file sends (name, bytes), a missing path raises FileNotFoundError and a directory raises IsADirectoryError at `read_bytes`; anything else raises ValueError. |
| `WhisperRest.FilePart` | demoapp/source/whisperclient.py:80-93 | Corrected: a 2-tuple uploads (filename, bytes); every other case as written. |
| `WhisperRest.TupleBytesDropped` | demoapp/source/whisperclient.py:80-82 | As written, a tuple's bytes never reach the request. |
| `WhisperRest.TupleMatchesPath` | demoapp/source/whisperclient.py:80-91 | Corrected, a tuple (name, contents) uploads exactly what the path of that file uploads. |
| `WhisperRest.NewTranscriptionResponse` | demoapp/source/whisperclient.py:107-109 | `text` is the result's "text" field, or "" when absent; the result is kept. |
| `WhisperRest.GetAttribute` | demoapp/source/whisperclient.py:106-114 | `text` and `_result` are attributes; any other name is the result field, or raises AttributeError when absent. |
| `WhisperRest.ResponseFor` | demoapp/source/whisperclient.py:100-116 | A request error propagates; an object answer is wrapped; a non-object answer fails at `.get`. |
| `WhisperRest.WhisperClient.constructor` | demoapp/source/whisperclient.py:13-27 | The base URL is argument, environment or default, less one trailing '/'; the key is argument or environment. |
| `WhisperRest.WhisperClient.GetHeaders` | demoapp/source/whisperclient.py:29-38 | Accept: application/json always. Authorization: "Bearer " + key (section 2.1 of RFC 6750) exactly when the key is non-empty. Nothing else. |
| `WhisperRest.WhisperClient.RequestHeaders` | demoapp/source/whisperclient.py:95-98 | The posted headers never contain Content-Type, and are the `_get_headers` map. |
| `WhisperRest.WhisperClient.Post` | demoapp/source/whisperclient.py:95-104 | A failed file dispatch raises before any request. Otherwise one POST to base URL + "/transcribe" with the headers, the form fields and the file part, and the answer wrapped. |
| `WhisperRest.WhisperClient.Transcribe` | demoapp/source/whisperclient.py:40-116 | As written: the POST of `Post` with the file part of the written dispatch, so a (filename, bytes) tuple posts only its file name as the part's content. |
| `WhisperRest.WhisperClient.TranscribeCorrected` | demoapp/source/whisperclient.py:40-116 | Corrected: the same POST with the corrected dispatch, so a (filename, bytes) tuple posts its bytes under that name. |
| `WhisperRest.AuthorizationHeader` | demoapp/source/whisperclient.py:23-36 | No key anywhere means no key; an empty argument defers to the environment; a non-empty argument wins. |
| `OrpheusRest.ResolveApiUrl` | demoapp/source/orpheusclient.py:21-27 | Argument, else environment, else http://localhost:5005, less one trailing '/'. |
| `OrpheusRest.EndpointsIgnoreSlash` | demoapp/source/orpheusclient.py:21-30 | A URL with one trailing slash yields the same endpoints as without it. |
| `OrpheusRest.DefaultEndpoints` | demoapp/source/orpheusclient.py:21-30 | The default endpoints are http://localhost:5005/v1/audio/speech and …/voices. |
| `OrpheusRest.JoinPath` | demoapp/source/orpheusclient.py:73 | `Path(dir) / name` ends in the name, with one '/' between. |
| `OrpheusRest.OutputPath` | demoapp/source/orpheusclient.py:71-75 | A given output path is used as-is; otherwise `orpheus_speech_{voice}.wav` joined to the temporary directory. |
| `OrpheusRest.OrpheusClient.constructor` | demoapp/source/orpheusclient.py:13-30 | The URL is resolved and stripped first, and both endpoints are built from the stripped URL. An omitted voice is "alloy". |
| `OrpheusRest.OrpheusClient.EffectiveVoice` | demoapp/source/orpheusclient.py:67 | The requested voice when non-empty, otherwise the client's. |
| `OrpheusRest.OrpheusClient.SpeechRequestFor` | demoapp/source/orpheusclient.py:63-84 | No request for empty text. Otherwise input=text, model "orpheus", the effective voice, format "wav", the speed, and the effective output path. |
| `OrpheusRest.OrpheusClient.Synthesize` | demoapp/source/orpheusclient.py:49-102 | Empty text returns None with no request. A failed request returns None and saves nothing. A successful one saves the audio to the output path and returns that path. |
| `OrpheusRest.OrpheusClient.Say` | demoapp/source/orpheusclient.py:104-118 | `synthesize` with no output path, the given voice and speed 1.0. |
| `OrpheusRest.OrpheusClient.GetAvailableVoices` | demoapp/source/orpheusclient.py:34-47 | The answer's "voices" field, or [] when it is missing or the request failed; a non-object answer raises. |
| `OrpheusRest.DemoSpeechRequest` | demoapp/demoapp.py:145-146 | The demo's client (voice "leo") sends each non-empty sentence with voice "leo" to "output.wav". |
| `OrpheusRest.EmptyVoiceIsDefault` | demoapp/source/orpheusclient.py:67 | An empty requested voice gives the same request as no voice. |
| `Strings.WordsCoverText` | qwen-3dot5-vllm/test_chat.py:99 | `split()` gives non-empty words without whitespace that together hold exactly the non-whitespace characters. |
| `Strings.WordsOfJoin` | qwen-3dot5-vllm/test_chat.py:99 | `split()` undoes a space-join of non-empty words without whitespace. |
| `Strings.Strip` | demoapp/demoapp.py:136 | `strip()`: whitespace, then the result, then whitespace, and the result has no whitespace at either end. |
| `Strings.StripIdempotent` | demoapp/demoapp.py:136 | Stripping twice is stripping once. |
| `Strings.ReplaceIsJoinOfSplit` | demoapp/demoapp.py:135 | `s.replace(p, r)` is `r.join(s.split(p))`. |
| `Strings.SplitJoinRoundTrip` | demoapp/demoapp.py:135 | Splitting on a separator and joining with it restores the string. |
| `Strings.ReplaceDeleteLength` | demoapp/demoapp.py:135 | Deleting a pattern removes its length once per occurrence that `split` finds. |
| `Strings.SplitPieceHasNoMatch` | demoapp/demoapp.py:135 | No occurrence of the separator starts at any position inside a piece of `split(sep)`; with the round trip this pins `split`, and through the join `replace`, to every left-to-right non-overlapping match. |
| `Strings.ReplaceAbsent` | demoapp/demoapp.py:135 | A string in which the pattern does not occur is unchanged by `replace`. |
| `Strings.ReplaceFirstCharAbsent` | demoapp/demoapp.py:135 | In particular, a string without the pattern's first character is unchanged. |
| `Strings.ReplaceDeleteUnchanged` | demoapp/demoapp.py:135 | Deleting a pattern leaves the string unchanged exactly when the pattern does not occur in it. |
| `Strings.JoinContainsPiece` | demoapp/demoapp.py:120 | Every piece of a join sits unchanged at its offset. |
| `Strings.JoinLength` | demoapp/demoapp.py:120 | A join is as long as its pieces plus one separator per neighbouring pair. |
| `Strings.ConcatAppend` | qwen-3dot5-vllm/test_chat.py:94 | `"".join` of two lists is the concatenation of the joins. |
| `Strings.StripTrailingSlash` | demoapp/source/whisperclient.py:26-27 | Removes one trailing '/' when there is one, else leaves the URL unchanged. |
| `Strings.StripTrailingSlashOnce` | demoapp/source/orpheusclient.py:25-26 | A URL with one slash appended loses exactly that slash. |
| `Strings.Decimal` | qwen-3dot5-vllm/test_tools.py:87 | Decimal digits only, without a leading zero. |
| `Strings.DecimalRoundTrip` | qwen-3dot5-vllm/test_tools.py:87 | Reading the digits back gives the number. |

## Left out

- The network is not modelled: the `openai` client, `requests`, the LLM call, and the FastAPI routes, CORS, root and health endpoints. Each reply, stream and HTTP answer is an input.
- Model loading (torch, transformers) is an opaque `LoadedPipeline(id)`; device and dtype choice are not modelled.
- Audio libraries are not modelled: `soundfile` decoding is an `Audio` or error input, and `audio_to_bytes` and the temporary WAV file of the demo are dropped.
- The clock (`time.perf_counter`, `time.time`, `last_used`) is not modelled: clock readings and the duration are inputs.
- Environment variables become `Option<string>` parameters.
- The UI is left out: gradio and fastrtc, `demo.launch()`, the module-level clients (except the demo voice in `OrpheusRest.DemoSpeechRequest`), and the generator's laziness (its yields become a returned list).
- Console output is left out: printing, ANSI colours, `textwrap`, logging, `round(..., 2)` and float formatting. Arithmetic is on `real`, not IEEE doubles.
- The `calculate` tool's `eval` is not modelled: its result records only the expression. The exact `json.dumps` text of tool results becomes a record.
- Tool-call arguments are taken as already decoded into a string map: `json.loads` of malformed arguments is not modelled.
- The `cache_dir` setting of the Whisper server has no effect on the logic and is dropped.
- The `if not file` guard of the transcription route is not modelled: FastAPI always supplies the upload, so the guard cannot fire.
- Missing and empty delta fields of the benchmark are merged, because the code only tests them for truthiness.
- `ChatBench.Benchmark`: contents that are empty strings and `None` are not distinguished.
- `ChatBench.TtftPresence`: assumes clock readings that are never 0.0. A reading of exactly 0.0 is falsy and drops the figure; `Summary` models that case too.
- `ChatBench.ThinkPresence`: assumes clock readings that are never 0.0, for the same reason.
- `ToolTest.ScenarioChained`: takes at least four replies, one per possible request. Unused replies are ignored.
- Path normalisation by `pathlib.Path` (".", "..", repeated '/') is not modelled for output paths: they are plain strings.
- WhisperRest.FilePartAsWritten: the file system is a map keyed by the path text as given, so two spellings of one file ("a/./b.wav", "a//b.wav") are two keys, and the OS's own error text for a directory is not modelled; resolving paths belongs to the operating system.
- The file name and content type that `requests` guesses for an uploaded stream are not modelled.
- A chat entry without a "role" or "content" key, and the `KeyError` it raises, is not modelled.
- `_get_headers` never sets Content-Type, so `RequestHeaders` subtracts it unconditionally. There is no branch for the deletion.
- A `from_pretrained` failure in `get_model_pipeline` is not modelled: loading always succeeds, so neither the failed start-up nor the 500 of the route that it causes appears.
- An `OSError` from `open(output_file, "wb")` in `synthesize` is not modelled: saving always succeeds, although the code catches only `requests.RequestException` and the error would propagate.
- `WhisperRest.GetAttribute`: names that Python finds by normal lookup on the class (`__init__`, `__class__`, `__dict__` and other dunder or method names) are routed to the result map here. Python reaches `__getattr__` only after that lookup fails, and the model does not represent class attributes.
- `OrpheusRest.OrpheusClient.constructor`: an explicit `voice=None` is treated like an omitted argument and gives "alloy". In the code it sets `self.voice = None`, and `synthesize` then sends voice None and saves to `orpheus_speech_None.wav`. The model's voice is a string, not an optional value.
- `VoiceChat.Exchange` and `VoiceChat.ResponseOnPause`: `chatbot += [...]` extends the caller's list in place, and the list yielded with the first silent frame is that same object, so a consumer that keeps it sees the later additions. The model returns the chat after each step as a new value, so this in-place update and aliasing is not captured.
- The server and the client are not composed. The server route is "/transcribe/" while the client posts to "/transcribe". The client sends the model as a form field `model`, which the server never reads: the server takes `model_name` from the query string.

## Findings

| source | as written | input that shows it | evidently intended | confidence | as-written member | corrected member |
|---|---|---|---|---|---|---|
| demoapp/source/whisperclient.py:80-82 | For a `(filename, bytes)` tuple, `files["file"] = file[0]`: only the file name reaches the request, which `requests` encodes as a file part named "file" whose content is the text "speech.wav" | `file=("speech.wav", b"\x01\x02\x03")` uploads a part whose content is "speech.wav" and none of the bytes | Upload the tuple itself, a named file with its contents, as the path branch does | not executed; high (the comment names the format, the code drops half of it) | `WhisperRest.FilePartAsWritten` (`WhisperRest.TupleBytesDropped`, `WhisperRest.WhisperClient.Transcribe`) | `WhisperRest.FilePart` (`WhisperRest.TupleMatchesPath`, `WhisperRest.WhisperClient.TranscribeCorrected`) |
| demoapp/demoapp.py:141-147 | Every piece of `re.split` is synthesised and `sf.read(output_file)` is called on the result unconditionally | A reply ending in ". " (e.g. "Hi. ") or an empty reply gives the piece "", `synthesize` returns None, and `sf.read(None)` raises; the handler stops before the end | Skip a sentence that produced no audio | not executed; medium (a failed TTS request hits the same path) | `VoiceChat.SpeakAsWritten` (`VoiceChat.TrailingSeparatorCrashes`, `VoiceChat.ResponseOnPause`) | `VoiceChat.Speak` (`VoiceChat.VoicedCount`, `VoiceChat.SpeakAgreesWhenAllVoiced`, `VoiceChat.ResponseOnPauseGuarded`) |
