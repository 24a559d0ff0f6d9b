# Bible Verse Agent — a Dafny model

The Bible Verse Agent answers a chat message about a Bible verse. A single query goes through these steps:

1. It strips the message.
2. A greeting is answered with a fixed greeting block.
3. Otherwise the agent extracts a verse reference from the message.
4. It replays a cached answer when there is one.
5. Otherwise it fetches the verse from bible-api.com and emits the verse data and its formatted text.
6. It streams an explanation from a chat-completions LLM endpoint.
7. It caches the result under the key `reference:prompt`.

The model covers that request pipeline of `BibleAgent.assist`. It also covers the pieces of the services and the configuration that the pipeline uses:

- the status-to-result mapping of `BibleService.get_verse`, `get_multiple_verses` and `format_verse_text`;
- the prompt templates of both `LLMService` explain methods, the line filter of the streamed reply (the `data: ` lines, the `[DONE]` sentinel, `choices[0].delta.content`) and the reply handling of `explain_verse_complete`;
- the verse URL and the environment-derived settings of `BibleConfig`.

Modules, one file each:

- `Wrappers` (`wrappers.dfy`) — `Option`.
- `Text` (`text.dfy`) — Python's `strip`, `lower`, `in`, `startswith`, decimal rendering and `int()`, restricted to ASCII.
- `PyJson` (`py_json.dfy`) — decoded JSON values with Python truthiness, `key in value`, `dict.get` and `str()`. `Outcome` marks an operation that raises.
- `BibleConfig` (`bible_config.dfy`) — settings from the environment, and the verse URL.
- `BibleService` (`bible_service.dfy`) — `get_verse` over the request's outcome, `get_multiple_verses` (a loop filling a map) and `format_verse_text`.
- `LlmService` (`llm_service.dfy`) — the prompt, the per-line classifier and its fold, `explain_verse` (a loop over reply lines) and `explain_verse_complete`.
- `Agent` (`agent.dfy`) — the greeting test, the cache key, the 50-character replay slices, and the trace of events and the cache write of `assist`. The specification function is `Respond`, and the imperative `Assist` is proved equal to it.

Everything the agent talks to is an input of the model:

- the verse parser (`string -> Option<string>`);
- the live cache entries (`Option<map<string, Dict>>`, where `None` means caching is disabled);
- what the Bible API answers for each URL;
- what the LLM endpoint answers for each request;
- `json.loads`;
- `str()` of a non-string JSON value.

An exception caught by the generic handler of `assist` becomes the event `Crash`, followed by `Complete`. That handler reports the error with code 500.

`get_verse` returns a dictionary only in three cases:
- a 200 response whose JSON body is a dict;
- a 404 or any other non-200 status;
- an `aiohttp.ClientConnectionError`.

Every other exception makes `get_verse` raise, and so does a 200 body that does not decode or is not a dict:
- an undecodable body makes `response.json()` raise;
- a non-dict body makes the log line's `data.get` raise.

Each of these exceptions reaches the clause `except aiohttp.ClientTimeout`. `ClientTimeout` is a configuration class, not an exception class, so Python raises `TypeError` while matching that clause. The following `except Exception` clause is therefore never reached, and its "Unexpected error" dictionary never appears. The model returns `Raised` in exactly these cases. `assist` then answers with `Crash` right after its lookup status, and `get_multiple_verses` stops at the first reference that raises.

## Model

| member | source | states |
|---|---|---|
| Text.Strip | config/bible_config.py:40 | the result is a contiguous piece of the input. Only whitespace lies before and after it, and neither end of the result is whitespace |
| Text.StripExact | src/bible_agent/agent.py:86 | a stripped string with whitespace put around it strips back to itself |
| Text.StripIgnoresSurroundingSpace | config/bible_config.py:40 | adding whitespace on either side never changes the stripped result |
| Text.Lower | src/bible_agent/agent.py:203 | same length; each character is lower-cased on its own (ASCII) |
| Text.Contains | src/bible_agent/agent.py:204-207 | `t in s` holds iff `t` occurs at some position of `s` |
| Text.MissingCharNotContained | src/bible_agent/agent.py:205 | if a character of `t` is absent from `s`, then `t in s` is false |
| Text.ContainsInContext | src/bible_agent/agent.py:205 | an occurrence stays an occurrence when text is added on both sides |
| Text.NatToString | src/bible_agent/llm_service.py:93 | the decimal rendering of a status code is non-empty and all digits |
| Text.ParseIntOfNatToString | config/bible_config.py:19-26 | `int()` of the decimal rendering of `n` is `n`. `ParseInt` is `int()` of a string: optional surrounding whitespace, an optional sign, then ASCII digits, and `None` for anything else (the ValueError) |
| BibleConfig.CacheFlag | config/bible_config.py:25 | the cache is enabled iff the value is four characters spelling "true" in any letter case |
| BibleConfig.CacheFlagExamples | config/bible_config.py:25 | "True", "TRUE" and "true" enable the cache; "1", "yes", " true" and "" disable it |
| BibleConfig.LoadSettings | config/bible_config.py:16-26 | `Load` (through `FromStrings`) computes the class attributes from the environment. Each attribute comes from its variable when set and is its default otherwise, and the import fails exactly when the timeout, the retry count or the TTL does not parse |
| BibleConfig.DefaultSettings | config/bible_config.py:16-26 | without any of the five variables: KJV, timeout 10, 3 retries, cache on, TTL 168 hours |
| BibleConfig.CleanRef | config/bible_config.py:40 | the cleaned reference is the stripped reference, character by character, with each space turned into '+' and every other character ('+' included) unchanged; it holds no space |
| BibleConfig.UrlReadsBack | config/bible_config.py:29-41 | `VerseUrl` is `get_verse_url`: the base, '/', the cleaned reference and `?translation=` with the translation. Reading any verse URL back gives the stripped reference with each '+' read as a space: nothing else is lost or encoded |
| BibleConfig.UrlRoundTrip | config/bible_config.py:40-41 | reading the URL back removes the base, the `?translation=` suffix and the '+' substitution. For a reference without '+' this yields the stripped reference: each space becomes one '+' and nothing else changes |
| BibleConfig.PlusAndSpaceShareUrl | config/bible_config.py:40-41 | there is no percent-encoding, so "John 3:16" and "John+3:16" give the same URL |
| BibleConfig.UrlIgnoresSurroundingSpace | config/bible_config.py:40 | surrounding whitespace never reaches the URL as '+' |
| BibleService.GetVerse | src/bible_agent/bible_service.py:51-97 | a 200 with a dict body returns the body unchanged. A refused request (a connection error, or a status other than 200) returns a dict with exactly error, reference and message, whose reference is the input. Anything else raises: any other exception, and a 200 body that does not decode or is not a dict |
| BibleService.GetVerseKinds | src/bible_agent/bible_service.py:51-97 | 404 gives "Verse not found"; another non-200 status gives "API error" with the status in the message; a connection error gives "Connection error". It raises exactly for another exception or a 200 without a dict body, so no outcome yields the "Timeout" or "Unexpected error" dict |
| BibleService.Gathered | src/bible_agent/bible_service.py:109-112 | the loop raises iff some request's `get_verse` raises. Otherwise the keys of the result are exactly the requested references |
| BibleService.LastResultWins | src/bible_agent/bible_service.py:110-111 | when the loop finishes, a reference maps to the result of its last occurrence in the list |
| BibleService.GetMultipleVerses | src/bible_agent/bible_service.py:109-112 | the loop fills the map in list order and stops at the first `get_verse` that raises, giving `Gathered` |
| BibleService.FormatVerseText | src/bible_agent/bible_service.py:114-135 | a string is returned only for a dict; every other value raises |
| BibleService.ErrorKeyWins | src/bible_agent/bible_service.py:124-125 | with "error" present, the result is "❌ " and the message, whatever else the dict holds |
| BibleService.VerseFormat | src/bible_agent/bible_service.py:127-135 | without "error", the result is the bold reference, the translation and the stripped text. The defaults are "Unknown", "King James Version" and "" |
| BibleService.LayoutOfStrip | src/bible_agent/bible_service.py:131-135 | the outer strip removes exactly the leading newline and the trailing blank line. The blank line before the text goes when the text is empty |
| LlmService.PromptTemplate | src/bible_agent/llm_service.py:48-64 | `Prompt` is the user prompt both explain methods build. The prompt opens with the question template iff the question is truthy, and then quotes the question. Otherwise it opens with "Please explain this Bible verse". Both contain the bold reference followed by the text |
| LlmService.QuestionPrompt | src/bible_agent/llm_service.py:49-57 | a non-empty question produces the question template, quoting the question |
| LlmService.PlainPrompt | src/bible_agent/llm_service.py:58-64 | a missing or empty question produces the plain template |
| LlmService.SamePromptBothWays | src/bible_agent/llm_service.py:149-176 | both explain methods send the same prompt; only the stream flag differs. This holds by construction, since both requests are built with `Prompt`: that the two source templates (llm_service.py:48-64 and 148-164) are the same text was established by reading them |
| LlmService.DataPayload | src/bible_agent/llm_service.py:98-106 | a line has a payload iff, once stripped, it is non-empty, is not `data: [DONE]` and starts with `data: `. The payload is the stripped line minus exactly those six characters |
| LlmService.DeltaContent | src/bible_agent/llm_service.py:110-115 | only a truthy content is yielded |
| LlmService.DeltaContentPath | src/bible_agent/llm_service.py:110-115 | content is yielded iff `choices` is a non-empty list whose first element's `delta` holds that truthy content |
| LlmService.LineContent | src/bible_agent/llm_service.py:97-121 | a line yields only if it has a payload and the payload parses; what it yields is truthy |
| LlmService.LineContents | src/bible_agent/llm_service.py:97-121 | there are at most as many chunks as lines, all truthy |
| LlmService.LineContentsAppend | src/bible_agent/llm_service.py:97-121 | the chunks of two runs of lines are the chunks of each run in order, so line order is kept |
| LlmService.SkippedLine | src/bible_agent/llm_service.py:100-101 | a line that yields nothing is skipped and reading continues with the next |
| LlmService.ErrorStatusChunk | src/bible_agent/llm_service.py:90-94 | a non-200 status yields exactly one chunk and no line content. When the error body is read, the chunk contains the status code. When `response.text()` raises, the chunk is the network or unexpected error chunk of that exception |
| LlmService.ExplainVerse | src/bible_agent/llm_service.py:30-128 | the method yields exactly `Explanation` of the endpoint's reply. `Explanation` gives one error chunk for an exception before the reply, the status chunk or the read failure's chunk for a non-200 status, and otherwise the lines' contents followed by the error chunk of a broken stream |
| LlmService.ReadLines | src/bible_agent/llm_service.py:97-121 | the loop over the body lines yields exactly `LineContents`: each line's chunk, if any, in line order |
| LlmService.ReadLine | src/bible_agent/llm_service.py:98-121 | one loop iteration, with its `continue`s, yields `LineContent` |
| LlmService.ExplainVerseComplete | src/bible_agent/llm_service.py:130-201 | a non-200 reply whose error body is read gives the fixed error text; one whose `response.text()` raises gives "Error: " and the exception's text. A 200 reply that decodes and holds `choices[0].message.content` (`MessageContent`) returns exactly that content, and only such a reply returns content. An exception, or an undecodable body, gives "Error: " and its text. A failed lookup gives the lookup error. Every error text starts with "Error: " |
| Agent.AnyPatternIn | src/bible_agent/agent.py:204-207 | true iff some pattern of the list occurs in the string |
| Agent.PatternInContext | src/bible_agent/agent.py:204-207 | a pattern found in a string is still found after text is added on either side |
| Agent.GreetingInContext | src/bible_agent/agent.py:201-207 | `IsGreeting` is `_is_greeting`: some pattern occurs in the lower-cased prompt. A greeting stays a greeting whatever text is put around it: the test is for substrings, not words |
| Agent.VerseQuestionsCountAsGreetings | src/bible_agent/agent.py:31-39 | "this verse", "Tell me about Psalm 23:1" and "According to Matthew 7:7, what did Jesus tell his disciples?" are greetings |
| Agent.BareReferenceIsNotGreeting | src/bible_agent/agent.py:31-39 | "John 3:16" is not a greeting |
| Agent.QuestionIsNotGreeting | src/bible_agent/agent.py:31-39 | "What does Romans 8:28 mean?" is not a greeting |
| Agent.CacheKeyDeterminesPrompt | src/bible_agent/agent.py:109 | `CacheKey` is the key `f"{verse_reference}:{user_prompt}"`. For one reference, equal keys mean equal prompts |
| Agent.CacheKeyCollision | src/bible_agent/agent.py:109 | different references can share a key, because ':' may occur in a reference |
| Agent.SlicesSpec | src/bible_agent/agent.py:274-278 | the slices concatenate back to the explanation. Each slice has 1 to 50 elements, all but the last exactly 50, and an empty explanation gives no slices |
| Agent.ChunksOf | src/bible_agent/agent.py:276-277 | the `range(0, len, 50)` loop produces exactly `Slices` |
| Agent.ReplayCompletesOnce | src/bible_agent/agent.py:243-283 | a replay ends with `complete`, and neither the stored sections nor the replayed explanation emit another one |
| Agent.StreamedNoComplete | src/bible_agent/agent.py:168-174 | the chunk loop never completes the response by itself |
| Agent.StreamedText | src/bible_agent/agent.py:166-174 | `Streamed` is the chunk loop as a function: the events it emits and the accumulated explanation, if `+=` never raised. With only str chunks, every chunk is emitted in order and the explanation is their in-order concatenation. Any other chunk leaves no explanation |
| Agent.StreamedStops | src/bible_agent/agent.py:168-174 | once `+=` has raised, later chunks change nothing |
| Agent.Entry | src/bible_agent/agent.py:180-185 | the cached dict has the four keys, the reference, the verse data as fetched, and the formatted text and explanation as str values |
| Agent.Explained | src/bible_agent/agent.py:151-190 | a write happens iff caching is on and the stream finished without raising. It is under the key and holds the reference, the verse data, the formatted text and the accumulated explanation |
| Agent.Present | src/bible_agent/agent.py:145-190 | a write only happens with a cache, under the key, holding the four entries |
| Agent.Lookup | src/bible_agent/agent.py:130-190 | the same, from the verse request on |
| Agent.ForReference | src/bible_agent/agent.py:108-190 | the same, from the cache lookup on, with the key `reference:prompt` |
| Agent.Respond | src/bible_agent/agent.py:85-199 | a write needs a cache, a non-greeting, and a found non-empty reference; its key is that reference and the stripped prompt, and it holds the four entries |
| Agent.ExplainedCompletesOnce | src/bible_agent/agent.py:151-190 | after the verse text, a stream that emitted no `complete` ends with exactly one |
| Agent.PresentCompletesOnce | src/bible_agent/agent.py:145-190 | presenting a verse ends with exactly one `complete`, whether formatting raises or not |
| Agent.LookupCompletesOnce | src/bible_agent/agent.py:130-190 | every outcome of the verse request ends with exactly one `complete` |
| Agent.ForReferenceCompletesOnce | src/bible_agent/agent.py:108-190 | a cache hit and a cache miss both end with exactly one `complete` |
| Agent.RespondCompletesOnce | src/bible_agent/agent.py:85-199 | every trace of `assist` ends with `complete`, and no other event is `complete` |
| Agent.GreetingAnswer | src/bible_agent/agent.py:86-92 | a greeting gives a greeting block and `complete`, whatever the parser, cache and services would do |
| Agent.NoReferenceAnswer | src/bible_agent/agent.py:95-104 | no reference gives exactly one INFO block and `complete` |
| Agent.CacheHitAnswer | src/bible_agent/agent.py:108-122 | a truthy cache entry is replayed with no fetch, no LLM call and no write. The answer depends only on the parser and the cache |
| Agent.LookupRejects | src/bible_agent/agent.py:130-139 | a returned verse result that is falsy, or has "error", ends the lookup with one error with code 404 and `complete`, and no write |
| Agent.RejectedVerseAnswer | src/bible_agent/agent.py:130-139 | a returned result that is falsy (an empty dict), or has "error", gives one error with code 404 and `complete`, and no write |
| Agent.FailedLookupAnswer | src/bible_agent/agent.py:130-139 | a refused verse request (a connection error or a non-200 status) reports the error dict's message with code 404, and nothing is cached |
| Agent.RaisedLookupAnswer | src/bible_agent/agent.py:124-199 | any other request failure, and a 200 body that does not decode to a dict, give the lookup status, then the generic 500 error and `complete`: no VERSE_DATA and no write |
| Agent.CacheDisabledNeverWrites | src/bible_agent/agent.py:52-58 | an agent built while `BIBLE_ENABLE_CACHE` is set to anything but a spelling of "true" has no cache manager, and no query writes to a cache |
| Agent.RespondLooksUp | src/bible_agent/agent.py:108-130 | an empty dict or missing entry counts as a miss, and the verse is looked up |
| Agent.LookupDelivers | src/bible_agent/agent.py:130-142 | a delivered verse dict without "error" is emitted as VERSE_DATA and then presented |
| Agent.PresentVerse | src/bible_agent/agent.py:145-190 | the layout of the verse, the header, the chunks and the write; or the crash when a chunk is not a str |
| Agent.LookupFresh | src/bible_agent/agent.py:130-190 | the fresh path from the verse request on |
| Agent.LookupChunkFailure | src/bible_agent/agent.py:130-190 | from the verse request on, a chunk that is not a str ends in the generic error and `complete`, with no write |
| Agent.FreshAnswer | src/bible_agent/agent.py:124-190 | the trace of a fresh answer, in order. With a cache, the stored entry holds the reference, the verse data, the layout and the concatenated chunks, under `reference:prompt` |
| Agent.ChunkFailureAnswer | src/bible_agent/agent.py:168-199 | a chunk that is not a str ends in the generic error and `complete`, with no write |
| Agent.ReplayStored | src/bible_agent/agent.py:250-283 | `Replay` (with `ReplayExplanation` for the explanation) is `_stream_cached_response`. The replay of a stored entry: the verse data, the verse text, the header, 50-character slices, then end of stream and `complete` |
| Agent.ReplayAfterWrite | src/bible_agent/agent.py:110-122 | asking again after a write replays exactly the stored entry |
| Agent.ReplayStoredExplanation | src/bible_agent/agent.py:273-280 | the explanation part of the replay method equals `ReplayExplanation` |
| Agent.StreamCachedResponse | src/bible_agent/agent.py:243-283 | the replay method emits the present sections in order, then `complete`: exactly `Replay` |
| Agent.StreamChunks | src/bible_agent/agent.py:166-176 | the chunk loop emits and accumulates exactly `Streamed` |
| Agent.ExplainFetchedVerse | src/bible_agent/agent.py:145-190 | the method equals `Present` |
| Agent.LookUpVerse | src/bible_agent/agent.py:130-190 | the method equals `Lookup` |
| Agent.Assist | src/bible_agent/agent.py:77-199 | the step-by-step method produces exactly the trace and write of `Respond` |

## Left out

- The verse parser and the TTL cache (`utils/verse_parser.py` and `utils/cache.py`) are not part of this model.
  - Reference extraction is an input function.
  - The cache is its live entries, a map from key to dict. Expiry, the cache files and what `cache_manager.set` does are not modelled.
  - A cache manager object is taken to be truthy.
- Networking: aiohttp sessions, connectors, SSL settings, headers, timeouts and retries are replaced by the outcome of each request, given as an input.
  - `MAX_RETRIES` is read but never used.
- `get_verse`'s `TypeError` is modelled as `Raised`, without its message. Its message, and the messages of the exceptions it replaces, are not modelled.
- In `get_verse`, a failure of `await response.text()` in the non-200 branch is not modelled. Like any exception other than a connection error, it would also raise `TypeError` out of `get_verse`.
- `json.loads` and `response.json()` are input functions.
  - The model does not say whether NaN or Infinity decode.
- The exception messages that Python builds with `str(e)` are not modelled:
  - the 500 error of the generic handler in `assist`;
  - the `Error: ...` chunks of `explain_verse`;
  - the lookup failure of `explain_verse_complete` (`LookupFailed`).
- `str()` of a non-string JSON value inside an f-string is the input `render`.
- Async execution is modelled sequentially, over finite sequences:
  - the LLM stream is the complete list of its lines;
  - a stream broken after some lines adds its error chunk after the chunks of those lines.
- `LlmService.ExplainVerse`: the UTF-8 decoding of each line is not modelled; lines are strings.
- `BibleService.Gathered`: the result is a map, so the insertion order of the Python dict is not modelled. Nothing in the modelled code reads that order.
- `Agent.Collaborators`: the collaborators are inputs. `ConfiguredBy` ties the translation and the presence of a cache to the settings. The agent's functions do not require it, because `assist` only sees the objects that `__init__` built.
- `Text.Strip` and `Text.Lower` are ASCII only: no Unicode whitespace and no non-ASCII case mapping.
- `Text.ParseInt` does not accept underscores or non-ASCII digits, which Python's `int()` does.
- Logging, `print`, `_print_startup_info` and the wording of the greeting text are not modelled.
  - The greeting is the single event `Greeting`.
- `main.py` (server and CORS wiring) and the `__init__.py` files (re-exports) are not modelled.
- `config/llm_config.py` is not part of this model: the model name, the system prompt, `max_tokens`, `temperature`, `top_p` and the API key.
  - A request is modelled as the user prompt plus the stream flag.
- `Agent.Streamed`: a chunk that is not a str is recorded as emitted before `+=` raises. Whether the framework's `emit_chunk` would already reject it is not modelled.
- `Agent.ChunksOf`: the index advances to the end of the slice instead of `i + 50`. The two differ only after the last slice, when the loop is over.
