/**
  `BibleAgent.assist`: one query turned into the trace of events the agent emits
  and the cache write it makes. The verse parser, the cache, both HTTP endpoints,
  `json.loads` and `str()` of non-string values are inputs (`Collaborators`).
 */
module Agent {
  import opened Wrappers
  import opened Text
  import opened PyJson
  import BibleConfig
  import BibleService
  import LlmService

  // ---------------------------------------------------------------- greetings

  const GreetingPatterns: seq<string> :=
    ["who are you", "what can you do", "hello", "hi", "hey", "help", "about"]

  /** `any(pattern in s for pattern in patterns)`. */
  function AnyPatternIn(patterns: seq<string>, s: string): (r: bool)
    ensures r <==> exists i :: 0 <= i < |patterns| && Contains(s, patterns[i])
  {
    if patterns == [] then false
    else
      assert forall i :: 0 < i < |patterns| ==> patterns[i] == patterns[1..][i - 1];
      Contains(s, patterns[0]) || AnyPatternIn(patterns[1..], s)
  }

  /** `BibleAgent._is_greeting(prompt)`: some pattern occurs anywhere in the lower-cased prompt. */
  predicate IsGreeting(prompt: string) {
    AnyPatternIn(GreetingPatterns, Lower(prompt))
  }

  /**
    The test is a substring test, not a word test: a prompt that counts as a greeting
    still counts after any text is put around it.
   */
  lemma GreetingInContext(a: string, prompt: string, b: string)
    requires IsGreeting(prompt)
    ensures IsGreeting(a + prompt + b)
  {
    LowerConcat(a, prompt);
    LowerConcat(a + prompt, b);
    PatternInContext(GreetingPatterns, Lower(a), Lower(prompt), Lower(b));
  }

  lemma PatternInContext(patterns: seq<string>, a: string, s: string, b: string)
    requires AnyPatternIn(patterns, s)
    ensures AnyPatternIn(patterns, a + s + b)
  {
    var i :| 0 <= i < |patterns| && Contains(s, patterns[i]);
    ContainsInContext(a, s, b, patterns[i]);
  }

  /**
    "hi" inside "this" and "his", and "about", make greetings of verse questions, among
    them two of the example questions the greeting text itself suggests.
   */
  lemma VerseQuestionsCountAsGreetings()
    ensures IsGreeting("this verse")
    ensures IsGreeting("Tell me about Psalm 23:1")
    ensures IsGreeting("According to Matthew 7:7, what did Jesus tell his disciples?")
  {
    assert OccursAt(Lower("this verse"), GreetingPatterns[3], 1);
    assert OccursAt(Lower("Tell me about Psalm 23:1"), GreetingPatterns[6], 8);
    assert OccursAt(Lower("According to Matthew 7:7, what did Jesus tell his disciples?"), GreetingPatterns[3], 46);
  }

  /** One character of each pattern that the lower-cased prompt lacks rules every pattern out. */
  lemma MissingFromEachPattern(prompt: string, s: string, witnesses: seq<char>)
    requires Lower(prompt) == s && |witnesses| == |GreetingPatterns|
    requires forall i :: 0 <= i < |witnesses| ==> witnesses[i] in GreetingPatterns[i] && witnesses[i] !in s
    ensures !IsGreeting(prompt)
  {
    forall i | 0 <= i < |witnesses| ensures !Contains(s, GreetingPatterns[i]) {
      MissingCharNotContained(s, GreetingPatterns[i], witnesses[i]);
    }
  }

  /** A bare reference passes the greeting test. */
  lemma BareReferenceIsNotGreeting()
    ensures !IsGreeting("John 3:16")
  {
    MissingFromEachPattern("John 3:16", "john 3:16", "wweieea");
  }

  /** So do questions that avoid every pattern. */
  lemma QuestionIsNotGreeting()
    ensures !IsGreeting("What does Romans 8:28 mean?")
  {
    MissingFromEachPattern("What does Romans 8:28 mean?", "what does romans 8:28 mean?", "yyliylb");
  }

  // ---------------------------------------------------------------- cache key

  /** `f"{verse_reference}:{user_prompt}"`. */
  function CacheKey(reference: string, userPrompt: string): string {
    reference + ":" + userPrompt
  }

  /** For one reference the key determines the prompt, so different questions never share an entry. */
  lemma CacheKeyDeterminesPrompt(reference: string, p1: string, p2: string)
    requires CacheKey(reference, p1) == CacheKey(reference, p2)
    ensures p1 == p2
  {
    var n := |reference| + 1;
    assert CacheKey(reference, p1)[n..] == p1;
    assert CacheKey(reference, p2)[n..] == p2;
  }

  /** Across references the key is ambiguous: the separator ':' may also occur in a reference. */
  lemma CacheKeyCollision()
    ensures CacheKey("John 3:16", "x") == CacheKey("John 3", "16:x")
  {
  }

  // ---------------------------------------------------------------- replay chunks

  const ChunkSize: nat := 50

  /** Consecutive slices of at most `n` elements, as `range(0, len(s), n)` cuts them. */
  function Slices<T>(s: seq<T>, n: nat): seq<seq<T>>
    requires n > 0
    decreases |s|
  {
    if |s| == 0 then [] else if |s| <= n then [s] else [s[..n]] + Slices(s[n..], n)
  }

  function Flatten<T>(parts: seq<seq<T>>): seq<T> {
    if parts == [] then [] else parts[0] + Flatten(parts[1..])
  }

  /**
    The slices put back together give the original, each slice is non-empty and at most
    `n` long, and every slice but the last is exactly `n` long.
   */
  lemma {:induction false} SlicesSpec<T>(s: seq<T>, n: nat)
    requires n > 0
    ensures Flatten(Slices(s, n)) == s
    ensures Slices(s, n) == [] <==> |s| == 0
    ensures forall k :: 0 <= k < |Slices(s, n)| ==> 0 < |Slices(s, n)[k]| <= n
    ensures forall k :: 0 <= k < |Slices(s, n)| - 1 ==> |Slices(s, n)[k]| == n
  {
    if |s| > n {
      SlicesSpec(s[n..], n);
      var rest := Slices(s[n..], n);
      assert Slices(s, n) == [s[..n]] + rest;
      assert ([s[..n]] + rest)[1..] == rest;
      assert s == s[..n] + s[n..];
    } else if |s| > 0 {
      assert Flatten([s]) == s + Flatten([s][1..]);
    }
  }

  /** The replay loop `for i in range(0, len(s), 50): s[i:i + 50]`. */
  method ChunksOf<T>(s: seq<T>) returns (chunks: seq<seq<T>>)
    ensures chunks == Slices(s, ChunkSize)
  {
    chunks := [];
    var i := 0;
    while i < |s|
      invariant 0 <= i <= |s|
      invariant chunks + Slices(s[i..], ChunkSize) == Slices(s, ChunkSize)
      decreases |s| - i
    {
      var end := if i + ChunkSize < |s| then i + ChunkSize else |s|;
      SlicesStep(s, i, end);
      chunks := chunks + [s[i..end]];
      i := end;  // stands for `i + 50`: the two differ only once the loop is over
    }
    assert s[i..] == [];
  }

  /** One step of the replay loop takes the next slice. */
  lemma SlicesStep<T>(s: seq<T>, i: nat, end: nat)
    requires i < |s| && end == (if i + ChunkSize < |s| then i + ChunkSize else |s|)
    ensures Slices(s[i..], ChunkSize) == [s[i..end]] + Slices(s[end..], ChunkSize)
  {
    if |s[i..]| > ChunkSize {
      assert s[i..][ChunkSize..] == s[end..];
      assert s[i..][..ChunkSize] == s[i..end];
    } else {
      assert s[end..] == [];
      assert s[i..] == s[i..end];
    }
  }

  // ---------------------------------------------------------------- events

  /** What the response handler is asked to emit, in order. */
  datatype Event =
    | Greeting                          // the GREETING block (its text is not modelled)
    | Info(text: string)                // the INFO block
    | Status(text: string)              // a STATUS block
    | VerseData(data: Json)             // emit_json("VERSE_DATA", ...)
    | VerseText(shown: Json)            // the VERSE_TEXT block
    | Chunk(content: Json)              // a chunk of the EXPLANATION stream
    | StreamDone                        // the EXPLANATION stream completes
    | Error(message: Json, code: int)   // emit_error
    | Crash                             // the error 500 of the generic exception handler
    | Complete                          // response_handler.complete()

  /** A call of `cache_manager.set(key, entry)`. */
  datatype CacheWrite = CacheWrite(key: string, entry: Dict)

  /** Everything one call of `assist` does that can be observed. */
  datatype Response = Response(trace: seq<Event>, write: Option<CacheWrite>)

  /** Every trace ends with one `complete()`, and there is no other. */
  predicate CompletesOnce(trace: seq<Event>) {
    |trace| > 0 && trace[|trace| - 1] == Complete && Complete !in trace[..|trace| - 1]
  }

  const NoReferenceText: string :=
    "\U{274C} I couldn't find a Bible verse reference in your message. Please include a verse like 'Matthew 7:7' or 'John 3:16'."
  const CacheHitText: string := "\U{2728} Found cached explanation"
  const GeneratingText: string := "\U{1F916} Generating explanation..."
  const Header: string := "\n## \U{1F4DA} Explanation\n\n"
  const FetchFailedText: string := "Failed to fetch verse"

  function LookingUpText(reference: string): string {
    "\U{1F4D6} Looking up " + reference + "..."
  }

  /**
    The collaborators `assist` calls. `cache` holds the live entries of the cache manager
    and is `None` when `BibleConfig.ENABLE_CACHE` is false.
   */
  datatype Collaborators = Collaborators(
    extractReference: string -> Option<string>,         // VerseParser.extract_verse_reference
    cache: Option<map<string, Dict>>,                   // CacheManager.get, over its live entries
    translation: string,                                // BibleConfig.DEFAULT_TRANSLATION
    bibleApi: string -> BibleService.Fetch,             // what a GET of a verse URL produces
    llmApi: LlmService.ChatRequest -> LlmService.LlmReply, // what the chat-completions endpoint produces
    parseJson: string -> Option<Json>,                  // json.loads
    render: Json -> string)                             // str() of a non-string value

  /**
    The collaborators of an agent built under `settings` (`BibleVerseAgent.__init__`):
    the verse URLs use `DEFAULT_TRANSLATION`, and a cache manager exists iff `ENABLE_CACHE`.
   */
  predicate ConfiguredBy(c: Collaborators, settings: BibleConfig.Settings) {
    c.translation == settings.translation && (c.cache.Some? <==> settings.enableCache)
  }

  /** `cache_manager.get(key)` when there is a cache manager. */
  function CacheGet(cache: Option<map<string, Dict>>, key: string): Option<Dict> {
    if cache.Some? && key in cache.value then Some(cache.value[key]) else None
  }

  /** A stored entry as `assist` writes it: the four keys, the reference, and str text and explanation. */
  predicate StoredEntry(entry: Dict, reference: string) {
    && entry.Keys == {"verse_reference", "verse_data", "verse_text", "explanation"}
    && entry["verse_reference"] == JStr(reference)
    && entry["verse_text"].JStr? && entry["explanation"].JStr?
  }

  /** The dictionary `assist` stores after a fresh answer. */
  function Entry(reference: string, verseData: Json, verseText: string, explanation: string): (entry: Dict)
    ensures StoredEntry(entry, reference)
    ensures entry["verse_data"] == verseData && entry["verse_text"] == JStr(verseText)
    ensures entry["explanation"] == JStr(explanation)
  {
    map["verse_reference" := JStr(reference), "verse_data" := verseData,
        "verse_text" := JStr(verseText), "explanation" := JStr(explanation)]
  }

  function Prepend(events: seq<Event>, r: Response): Response {
    Response(events + r.trace, r.write)
  }

  lemma PrependCompletes(events: seq<Event>, trace: seq<Event>)
    requires Complete !in events && CompletesOnce(trace)
    ensures CompletesOnce(events + trace)
  {
    assert (events + trace)[..|events + trace| - 1] == events + trace[..|trace| - 1];
  }

  // ---------------------------------------------------------------- replay

  function ChunkEvents(parts: seq<Json>): (events: seq<Event>)
    ensures |events| == |parts|
  {
    seq(|parts|, k requires 0 <= k < |parts| => Chunk(parts[k]))
  }

  function StrSlices(parts: seq<string>): seq<Json> {
    seq(|parts|, k requires 0 <= k < |parts| => JStr(parts[k]))
  }

  function ArrSlices(parts: seq<seq<Json>>): seq<Json> {
    seq(|parts|, k requires 0 <= k < |parts| => JArr(parts[k]))
  }

  /**
    The EXPLANATION stream of a replay after its header. `len` and slicing work on a str
    and a list; `len` of an empty dict is 0; any other value raises.
   */
  function ReplayExplanation(explanation: Json): seq<Event> {
    match explanation
    case JStr(s) => ChunkEvents(StrSlices(Slices(s, ChunkSize))) + [StreamDone]
    case JArr(items) => ChunkEvents(ArrSlices(Slices(items, ChunkSize))) + [StreamDone]
    case JObj(fields) => if fields == map[] then [StreamDone] else [Crash]
    case _ => [Crash]
  }

  /** The stored sections that are present, in the fixed order of `_stream_cached_response`. */
  function ReplaySections(entry: Dict): seq<Event> {
    DataSection(entry) + TextSection(entry) + ExplanationSection(entry)
  }

  function DataSection(entry: Dict): seq<Event> {
    if "verse_data" in entry then [VerseData(entry["verse_data"])] else []
  }

  function TextSection(entry: Dict): seq<Event> {
    if "verse_text" in entry then [VerseText(entry["verse_text"])] else []
  }

  function ExplanationSection(entry: Dict): seq<Event> {
    if "explanation" in entry then [Chunk(JStr(Header))] + ReplayExplanation(entry["explanation"]) else []
  }

  /** `_stream_cached_response(cached_data)`: the sections, then one `complete()`. */
  function Replay(entry: Dict): seq<Event> {
    ReplaySections(entry) + [Complete]
  }

  // ---------------------------------------------------------------- fresh answers

  /**
    The chunk loop of `assist`: the events it emits and `full_explanation`, or `None`
    once a chunk that is not a str has been emitted and `+=` has raised.
   */
  function Streamed(chunks: seq<Json>): (seq<Event>, Option<string>) {
    if chunks == [] then ([], Some(""))
    else
      var n := |chunks| - 1;
      var earlier := Streamed(chunks[..n]);
      if earlier.1.None? then earlier
      else
        (earlier.0 + [Chunk(chunks[n])], if chunks[n].JStr? then Some(earlier.1.value + chunks[n].s) else None)
  }

  /** All chunks are strings. */
  predicate AllText(chunks: seq<Json>) {
    forall i :: 0 <= i < |chunks| ==> chunks[i].JStr?
  }

  /** The in-order concatenation of string chunks. */
  function Joined(chunks: seq<Json>): string
    requires AllText(chunks)
  {
    if chunks == [] then "" else chunks[0].s + Joined(chunks[1..])
  }

  lemma {:induction false} JoinedSnoc(chunks: seq<Json>, last: Json)
    requires AllText(chunks) && last.JStr?
    ensures AllText(chunks + [last]) && Joined(chunks + [last]) == Joined(chunks) + last.s
  {
    if chunks != [] {
      assert (chunks + [last])[1..] == chunks[1..] + [last];
      JoinedSnoc(chunks[1..], last);
    }
  }

  /**
    When every chunk is a string, each one is emitted in order and the stored explanation
    is their concatenation; otherwise nothing is stored.
   */
  lemma {:induction false} StreamedText(chunks: seq<Json>)
    ensures AllText(chunks) ==> Streamed(chunks) == (ChunkEvents(chunks), Some(Joined(chunks)))
    ensures !AllText(chunks) ==> Streamed(chunks).1.None?
  {
    if chunks != [] {
      var n := |chunks| - 1;
      StreamedText(chunks[..n]);
      assert chunks == chunks[..n] + [chunks[n]];
      if AllText(chunks) {
        JoinedSnoc(chunks[..n], chunks[n]);
        assert ChunkEvents(chunks) == ChunkEvents(chunks[..n]) + [Chunk(chunks[n])];
      } else if AllText(chunks[..n]) {
        assert !chunks[n].JStr?;
      }
    }
  }

  /** Once a chunk has raised, later chunks change nothing: the loop is left. */
  lemma {:induction false} StreamedStops(chunks: seq<Json>, j: nat)
    requires j <= |chunks| && Streamed(chunks[..j]).1.None?
    ensures Streamed(chunks) == Streamed(chunks[..j])
  {
    if j < |chunks| {
      var n := |chunks| - 1;
      assert chunks[..n][..j] == chunks[..j];
      StreamedStops(chunks[..n], j);
    } else {
      assert chunks[..j] == chunks;
    }
  }

  /**
    What `llm_service.explain_verse` yields for this verse: the reference and text are
    taken from the verse data when present, and the question is the stripped prompt.
   */
  function ExplanationChunks(reference: string, userPrompt: string, fields: Dict, c: Collaborators): seq<Json> {
    var request := LlmService.StreamingRequest(
      Show(Get(fields, "reference", JStr(reference)), c.render),
      Show(Get(fields, "text", JStr("")), c.render),
      Some(userPrompt));
    LlmService.Explanation(c.llmApi(request), c.parseJson)
  }

  /** After the verse is shown: the explanation stream from the LLM, then the cache write. */
  function Present(reference: string, userPrompt: string, key: string, verseData: Json, c: Collaborators): (r: Response)
    ensures r.write.Some? ==> c.cache.Some? && r.write.value.key == key && StoredEntry(r.write.value.entry, reference)
  {
    match BibleService.FormatVerseText(verseData, c.render)
    case Raised => Response([Crash, Complete], None)
    case Returned(formatted) =>
      Explained(reference, key, verseData, formatted, Streamed(ExplanationChunks(reference, userPrompt, verseData.fields, c)), c.cache.Some?)
  }

  /**
    The events from the formatted verse on: VERSE_TEXT, the status, the header and the
    streamed chunks; then the end of the stream and, when `caching`, the write, or the
    generic error once a chunk has raised.
   */
  function Explained(reference: string, key: string, verseData: Json, formatted: string,
                     streamed: (seq<Event>, Option<string>), caching: bool): (r: Response)
    ensures r.write.Some? <==> caching && streamed.1.Some?
    ensures r.write.Some? ==> r.write.value == CacheWrite(key, Entry(reference, verseData, formatted, streamed.1.value))
    ensures r.write.Some? ==> StoredEntry(r.write.value.entry, reference)
  {
    var shown := [VerseText(JStr(formatted)), Status(GeneratingText), Chunk(JStr(Header))] + streamed.0;
    if streamed.1.None? then Response(shown + [Crash, Complete], None)
    else
      Response(shown + [StreamDone, Complete],
               if caching then Some(CacheWrite(key, Entry(reference, verseData, formatted, streamed.1.value))) else None)
  }

  /** The verse request and the checks on its result. */
  function Lookup(reference: string, userPrompt: string, key: string, c: Collaborators): (r: Response)
    ensures r.write.Some? ==> c.cache.Some? && r.write.value.key == key && StoredEntry(r.write.value.entry, reference)
  {
    match BibleService.GetVerse(reference, VerseOutcome(reference, c))
    case Raised => Response([Crash, Complete], None)
    case Returned(verseData) =>
      if !Truthy(verseData) then Response([Error(JStr(FetchFailedText), 404), Complete], None)
      else
        match In("error", verseData)
        case Raised => Response([Crash, Complete], None)
        case Returned(hasError) =>
          if hasError then
            if verseData.JObj? then Response([Error(Get(verseData.fields, "message", JStr(FetchFailedText)), 404), Complete], None)
            else Response([Crash, Complete], None)
          else
            Prepend([VerseData(verseData)], Present(reference, userPrompt, key, verseData, c))
  }

  /** A reference was found: a cache hit is replayed, otherwise the verse is looked up. */
  function ForReference(reference: string, userPrompt: string, c: Collaborators): (r: Response)
    ensures r.write.Some? ==>
      c.cache.Some? && r.write.value.key == CacheKey(reference, userPrompt) && StoredEntry(r.write.value.entry, reference)
  {
    var key := CacheKey(reference, userPrompt);
    var cached := CacheGet(c.cache, key);
    if cached.Some? && cached.value != map[] then Response([Status(CacheHitText)] + Replay(cached.value), None)
    else Prepend([Status(LookingUpText(reference))], Lookup(reference, userPrompt, key, c))
  }

  /**
    `BibleAgent.assist(session, query, response_handler)` for the prompt `prompt`. An
    entry is written only when there is a cache, under the key made of the extracted
    reference and the stripped prompt.
   */
  function Respond(prompt: string, c: Collaborators): (r: Response)
    ensures r.write.Some? ==>
      && c.cache.Some?
      && !IsGreeting(Strip(prompt))
      && c.extractReference(Strip(prompt)).Some?
      && c.extractReference(Strip(prompt)).value != ""
      && r.write.value.key == CacheKey(c.extractReference(Strip(prompt)).value, Strip(prompt))
      && StoredEntry(r.write.value.entry, c.extractReference(Strip(prompt)).value)
  {
    var userPrompt := Strip(prompt);
    if IsGreeting(userPrompt) then Response([Greeting, Complete], None)
    else
      var found := c.extractReference(userPrompt);
      if found.None? || found.value == "" then Response([Info(NoReferenceText), Complete], None)
      else ForReference(found.value, userPrompt, c)
  }

  /**
    With `BIBLE_ENABLE_CACHE` set to anything but a spelling of "true", the agent has no
    cache manager, so no query writes to a cache.
   */
  lemma CacheDisabledNeverWrites(prompt: string, c: Collaborators, env: BibleConfig.Env)
    requires BibleConfig.Load(env).Some? && ConfiguredBy(c, BibleConfig.Load(env).value)
    requires "BIBLE_ENABLE_CACHE" in env && !BibleConfig.CacheFlag(env["BIBLE_ENABLE_CACHE"])
    ensures c.cache.None?
    ensures Respond(prompt, c).write.None?
  {
    BibleConfig.LoadSettings(env);
  }

  // ---------------------------------------------------------------- exactly one complete()

  lemma {:induction false} StreamedNoComplete(chunks: seq<Json>)
    ensures Complete !in Streamed(chunks).0
  {
    if chunks != [] {
      StreamedNoComplete(chunks[..|chunks| - 1]);
    }
  }

  /** A replay ends with its one `complete()`. */
  lemma ReplayCompletesOnce(entry: Dict)
    ensures CompletesOnce(Replay(entry))
  {
    assert Complete !in DataSection(entry) && Complete !in TextSection(entry);
    if "explanation" in entry {
      assert Complete !in ReplayExplanation(entry["explanation"]);
    }
    assert Complete !in ExplanationSection(entry);
    PrependCompletes(ReplaySections(entry), [Complete]);
  }

  lemma PresentCompletesOnce(reference: string, userPrompt: string, key: string, verseData: Json, c: Collaborators)
    ensures CompletesOnce(Present(reference, userPrompt, key, verseData, c).trace)
  {
    var formatted := BibleService.FormatVerseText(verseData, c.render);
    if formatted.Returned? {
      var chunks := ExplanationChunks(reference, userPrompt, verseData.fields, c);
      StreamedNoComplete(chunks);
      ExplainedCompletesOnce(reference, key, verseData, formatted.value, Streamed(chunks), c.cache.Some?);
    }
  }

  lemma ExplainedCompletesOnce(reference: string, key: string, verseData: Json, formatted: string,
                               streamed: (seq<Event>, Option<string>), caching: bool)
    requires Complete !in streamed.0
    ensures CompletesOnce(Explained(reference, key, verseData, formatted, streamed, caching).trace)
  {
    var shown := [VerseText(JStr(formatted)), Status(GeneratingText), Chunk(JStr(Header))] + streamed.0;
    PrependCompletes(shown, [Crash, Complete]);
    PrependCompletes(shown, [StreamDone, Complete]);
  }

  lemma ForReferenceCompletesOnce(reference: string, userPrompt: string, c: Collaborators)
    ensures CompletesOnce(ForReference(reference, userPrompt, c).trace)
  {
    var key := CacheKey(reference, userPrompt);
    var cached := CacheGet(c.cache, key);
    if cached.Some? && cached.value != map[] {
      ReplayCompletesOnce(cached.value);
      PrependCompletes([Status(CacheHitText)], Replay(cached.value));
    } else {
      LookupCompletesOnce(reference, userPrompt, key, c);
      PrependCompletes([Status(LookingUpText(reference))], Lookup(reference, userPrompt, key, c).trace);
    }
  }

  lemma LookupCompletesOnce(reference: string, userPrompt: string, key: string, c: Collaborators)
    ensures CompletesOnce(Lookup(reference, userPrompt, key, c).trace)
  {
    var fetched := BibleService.GetVerse(reference, VerseOutcome(reference, c));
    var verseData := if fetched.Returned? then fetched.value else JNull;
    if fetched.Returned? && Truthy(verseData) && In("error", verseData) == Returned(false) {
      PresentCompletesOnce(reference, userPrompt, key, verseData, c);
      PrependCompletes([VerseData(verseData)], Present(reference, userPrompt, key, verseData, c).trace);
    }
  }

  /** Every trace of `assist` ends with one `complete()`, and there is no other. */
  lemma RespondCompletesOnce(prompt: string, c: Collaborators)
    ensures CompletesOnce(Respond(prompt, c).trace)
  {
    var found := c.extractReference(Strip(prompt));
    if !IsGreeting(Strip(prompt)) && found.Some? && found.value != "" {
      ForReferenceCompletesOnce(found.value, Strip(prompt), c);
    }
  }

  // ---------------------------------------------------------------- what a query leads to

  /** The prompt passes the greeting test and the parser finds `reference` in it. */
  predicate Names(prompt: string, reference: string, c: Collaborators) {
    !IsGreeting(Strip(prompt)) && c.extractReference(Strip(prompt)) == Some(reference) && reference != ""
  }

  /** No usable cache entry: caching is off, the key is absent, or the entry is an empty dict. */
  predicate CacheMiss(prompt: string, reference: string, c: Collaborators) {
    var cached := CacheGet(c.cache, CacheKey(reference, Strip(prompt)));
    cached.None? || cached.value == map[]
  }

  /** What the verse request for `reference` produces. */
  function VerseOutcome(reference: string, c: Collaborators): BibleService.Fetch {
    c.bibleApi(BibleConfig.VerseUrl(c.translation, reference))
  }

  /** A greeting is answered at once: no reference, cache, request or write. */
  lemma GreetingAnswer(prompt: string, c: Collaborators)
    requires IsGreeting(Strip(prompt))
    ensures Respond(prompt, c) == Response([Greeting, Complete], None)
  {
  }

  /** Without a reference the agent says so and stops. */
  lemma NoReferenceAnswer(prompt: string, c: Collaborators)
    requires !IsGreeting(Strip(prompt))
    requires c.extractReference(Strip(prompt)) == None || c.extractReference(Strip(prompt)) == Some("")
    ensures Respond(prompt, c) == Response([Info(NoReferenceText), Complete], None)
  {
  }

  /**
    A cache hit replays the stored entry and writes nothing; the Bible API, the LLM
    and the rest of the collaborators are not consulted.
   */
  lemma CacheHitAnswer(prompt: string, reference: string, c: Collaborators, other: Collaborators)
    requires Names(prompt, reference, c) && !CacheMiss(prompt, reference, c)
    requires other.extractReference(Strip(prompt)) == c.extractReference(Strip(prompt)) && other.cache == c.cache
    ensures Respond(prompt, c) ==
      Response([Status(CacheHitText)] + Replay(CacheGet(c.cache, CacheKey(reference, Strip(prompt))).value), None)
    ensures Respond(prompt, other) == Respond(prompt, c)
  {
  }

  /** The verse lookup of a returned result that is falsy or a dict with an "error" key. */
  lemma LookupRejects(reference: string, userPrompt: string, key: string, c: Collaborators)
    requires var fetched := BibleService.GetVerse(reference, VerseOutcome(reference, c));
      fetched.Returned? && (!Truthy(fetched.value) || (fetched.value.JObj? && "error" in fetched.value.fields))
    ensures var data := BibleService.GetVerse(reference, VerseOutcome(reference, c)).value;
      var message := if Truthy(data) then Get(data.fields, "message", JStr(FetchFailedText)) else JStr(FetchFailedText);
      Lookup(reference, userPrompt, key, c) == Response([Error(message, 404), Complete], None)
  {
  }

  /**
    A returned verse result that is falsy (an empty dict), or a dict with an "error" key,
    is reported with code 404: its "message" (or "Failed to fetch verse" when it has
    none, or when the result is falsy), and nothing is cached.
   */
  lemma RejectedVerseAnswer(prompt: string, reference: string, c: Collaborators)
    requires Names(prompt, reference, c) && CacheMiss(prompt, reference, c)
    requires var fetched := BibleService.GetVerse(reference, VerseOutcome(reference, c));
      fetched.Returned? && (!Truthy(fetched.value) || (fetched.value.JObj? && "error" in fetched.value.fields))
    ensures var data := BibleService.GetVerse(reference, VerseOutcome(reference, c)).value;
      var message := if Truthy(data) then Get(data.fields, "message", JStr(FetchFailedText)) else JStr(FetchFailedText);
      Respond(prompt, c) == Response([Status(LookingUpText(reference)), Error(message, 404), Complete], None)
  {
    RespondLooksUp(prompt, reference, c);
    LookupRejects(reference, Strip(prompt), CacheKey(reference, Strip(prompt)), c);
  }

  /**
    When the verse request is refused (a connection error, or a status other than 200),
    the error dictionary's message is emitted with code 404 and nothing is cached.
   */
  lemma FailedLookupAnswer(prompt: string, reference: string, c: Collaborators)
    requires Names(prompt, reference, c) && CacheMiss(prompt, reference, c)
    requires BibleService.Refused(VerseOutcome(reference, c))
    ensures var fetched := BibleService.GetVerse(reference, VerseOutcome(reference, c));
      && fetched.Returned? && fetched.value.JObj?
      && "message" in fetched.value.fields && fetched.value.fields["message"].JStr?
      && Respond(prompt, c) ==
         Response([Status(LookingUpText(reference)), Error(fetched.value.fields["message"], 404), Complete], None)
  {
    var failure := BibleService.GetVerse(reference, VerseOutcome(reference, c)).value;
    assert "error" in failure.fields;
    RejectedVerseAnswer(prompt, reference, c);
  }

  /**
    Any other failure of the verse request, and a 200 body that does not decode to a
    dict, make `get_verse` raise. The generic handler of `assist` then reports the
    error with code 500 (`Crash`) right after the lookup status: no VERSE_DATA, no
    404 error and no write.
   */
  lemma RaisedLookupAnswer(prompt: string, reference: string, c: Collaborators)
    requires Names(prompt, reference, c) && CacheMiss(prompt, reference, c)
    requires var outcome := VerseOutcome(reference, c);
      outcome.OtherFailure? || (outcome.Reply? && outcome.status == 200 && !BibleService.Delivered(outcome))
    ensures Respond(prompt, c) == Response([Status(LookingUpText(reference)), Crash, Complete], None)
  {
    RespondLooksUp(prompt, reference, c);
    assert BibleService.GetVerse(reference, VerseOutcome(reference, c)).Raised?;
  }

  /** Past the greeting test, the parser and the cache, the answer is the verse lookup. */
  lemma RespondLooksUp(prompt: string, reference: string, c: Collaborators)
    requires Names(prompt, reference, c) && CacheMiss(prompt, reference, c)
    ensures Respond(prompt, c) ==
      Prepend([Status(LookingUpText(reference))], Lookup(reference, Strip(prompt), CacheKey(reference, Strip(prompt)), c))
  {
  }

  /** A delivered, non-empty verse dictionary without "error" is emitted and then presented. */
  lemma LookupDelivers(reference: string, userPrompt: string, key: string, c: Collaborators, fields: Dict)
    requires VerseOutcome(reference, c) == BibleService.Reply(200, Parsed(JObj(fields)))
    requires fields != map[] && "error" !in fields
    ensures Lookup(reference, userPrompt, key, c) ==
      Prepend([VerseData(JObj(fields))], Present(reference, userPrompt, key, JObj(fields), c))
  {
    assert BibleService.GetVerse(reference, VerseOutcome(reference, c)) == Returned(JObj(fields));
  }

  /** The layout `format_verse_text` gives a verse dictionary. */
  function LayoutOf(fields: Dict, render: Json -> string): string
    requires "text" in fields ==> fields["text"].JStr?
  {
    BibleService.VerseLayout(
      Show(Get(fields, "reference", JStr("Unknown")), render),
      Show(Get(fields, "translation_name", JStr("King James Version")), render),
      Get(fields, "text", JStr("")).s)
  }

  /** Presenting a verse dictionary: the layout, the chunks, and the write when they are all str. */
  lemma PresentVerse(reference: string, userPrompt: string, key: string, c: Collaborators, fields: Dict)
    requires "error" !in fields
    requires "text" in fields ==> fields["text"].JStr?
    ensures var chunks := ExplanationChunks(reference, userPrompt, fields, c);
      var shown := [VerseText(JStr(LayoutOf(fields, c.render))), Status(GeneratingText), Chunk(JStr(Header))];
      Present(reference, userPrompt, key, JObj(fields), c) ==
        if AllText(chunks) then
          Response(shown + ChunkEvents(chunks) + [StreamDone, Complete],
                   if c.cache.Some?
                   then Some(CacheWrite(key, Entry(reference, JObj(fields), LayoutOf(fields, c.render), Joined(chunks))))
                   else None)
        else Response(shown + Streamed(chunks).0 + [Crash, Complete], None)
  {
    BibleService.VerseFormat(fields, c.render);
    StreamedText(ExplanationChunks(reference, userPrompt, fields, c));
  }

  /**
    A delivered verse whose LLM answer streams only str chunks: the verse, its layout
    and every chunk in order are emitted, and with a cache the entry holds the
    concatenation of the chunks under the key of the reference and the stripped prompt.
   */
  lemma FreshAnswer(prompt: string, reference: string, c: Collaborators, fields: Dict)
    requires Names(prompt, reference, c) && CacheMiss(prompt, reference, c)
    requires VerseOutcome(reference, c) == BibleService.Reply(200, Parsed(JObj(fields)))
    requires fields != map[] && "error" !in fields
    requires "text" in fields ==> fields["text"].JStr?
    requires AllText(ExplanationChunks(reference, Strip(prompt), fields, c))
    ensures var chunks := ExplanationChunks(reference, Strip(prompt), fields, c);
      var layout := LayoutOf(fields, c.render);
      Respond(prompt, c) == Response(
        [Status(LookingUpText(reference)), VerseData(JObj(fields)), VerseText(JStr(layout)),
         Status(GeneratingText), Chunk(JStr(Header))] + ChunkEvents(chunks) + [StreamDone, Complete],
        if c.cache.Some?
        then Some(CacheWrite(CacheKey(reference, Strip(prompt)), Entry(reference, JObj(fields), layout, Joined(chunks))))
        else None)
  {
    var key := CacheKey(reference, Strip(prompt));
    var chunks := ExplanationChunks(reference, Strip(prompt), fields, c);
    var layout := LayoutOf(fields, c.render);
    var events := [VerseData(JObj(fields)), VerseText(JStr(layout)), Status(GeneratingText), Chunk(JStr(Header))]
                  + ChunkEvents(chunks) + [StreamDone, Complete];
    RespondLooksUp(prompt, reference, c);
    LookupFresh(reference, Strip(prompt), key, c, fields);
    ConsFive(Status(LookingUpText(reference)), VerseData(JObj(fields)), VerseText(JStr(layout)),
             Status(GeneratingText), Chunk(JStr(Header)), ChunkEvents(chunks), [StreamDone, Complete]);
  }

  /** The lookup part of `FreshAnswer`. */
  lemma LookupFresh(reference: string, userPrompt: string, key: string, c: Collaborators, fields: Dict)
    requires VerseOutcome(reference, c) == BibleService.Reply(200, Parsed(JObj(fields)))
    requires fields != map[] && "error" !in fields
    requires "text" in fields ==> fields["text"].JStr?
    requires AllText(ExplanationChunks(reference, userPrompt, fields, c))
    ensures var chunks := ExplanationChunks(reference, userPrompt, fields, c);
      var layout := LayoutOf(fields, c.render);
      Lookup(reference, userPrompt, key, c) == Response(
        [VerseData(JObj(fields)), VerseText(JStr(layout)), Status(GeneratingText), Chunk(JStr(Header))]
        + ChunkEvents(chunks) + [StreamDone, Complete],
        if c.cache.Some? then Some(CacheWrite(key, Entry(reference, JObj(fields), layout, Joined(chunks)))) else None)
  {
    var chunks := ExplanationChunks(reference, userPrompt, fields, c);
    var layout := LayoutOf(fields, c.render);
    LookupDelivers(reference, userPrompt, key, c, fields);
    PresentVerse(reference, userPrompt, key, c, fields);
    ConsFour(VerseData(JObj(fields)), VerseText(JStr(layout)), Status(GeneratingText), Chunk(JStr(Header)),
             ChunkEvents(chunks), [StreamDone, Complete]);
  }

  /** The lookup part of `ChunkFailureAnswer`. */
  lemma LookupChunkFailure(reference: string, userPrompt: string, key: string, c: Collaborators, fields: Dict)
    requires VerseOutcome(reference, c) == BibleService.Reply(200, Parsed(JObj(fields)))
    requires fields != map[] && "error" !in fields
    requires "text" in fields ==> fields["text"].JStr?
    requires !AllText(ExplanationChunks(reference, userPrompt, fields, c))
    ensures Lookup(reference, userPrompt, key, c).write == None
    ensures var trace := Lookup(reference, userPrompt, key, c).trace;
      |trace| >= 2 && trace[|trace| - 2..] == [Crash, Complete]
  {
    LookupDelivers(reference, userPrompt, key, c, fields);
    PresentVerse(reference, userPrompt, key, c, fields);
    var chunks := ExplanationChunks(reference, userPrompt, fields, c);
    var shown := [VerseText(JStr(LayoutOf(fields, c.render))), Status(GeneratingText), Chunk(JStr(Header))];
    var present := Present(reference, userPrompt, key, JObj(fields), c).trace;
    EndsWith(shown + Streamed(chunks).0, [Crash, Complete]);
    FrontKeepsEnd([VerseData(JObj(fields))], present, [Crash, Complete]);
  }

  /** A chunk that is not a str ends the answer with the generic error, and nothing is cached. */
  lemma ChunkFailureAnswer(prompt: string, reference: string, c: Collaborators, fields: Dict)
    requires Names(prompt, reference, c) && CacheMiss(prompt, reference, c)
    requires VerseOutcome(reference, c) == BibleService.Reply(200, Parsed(JObj(fields)))
    requires fields != map[] && "error" !in fields
    requires "text" in fields ==> fields["text"].JStr?
    requires !AllText(ExplanationChunks(reference, Strip(prompt), fields, c))
    ensures Respond(prompt, c).write == None
    ensures var trace := Respond(prompt, c).trace;
      |trace| >= 2 && trace[|trace| - 2..] == [Crash, Complete]
  {
    var key := CacheKey(reference, Strip(prompt));
    RespondLooksUp(prompt, reference, c);
    LookupChunkFailure(reference, Strip(prompt), key, c, fields);
    var inner := Lookup(reference, Strip(prompt), key, c).trace;
    assert ([Status(LookingUpText(reference))] + inner)[|inner| - 1..] == inner[|inner| - 2..];
  }

  /** The replay of an entry as `assist` stores it. */
  lemma ReplayStored(entry: Dict, reference: string)
    requires StoredEntry(entry, reference)
    ensures Replay(entry) ==
      [VerseData(entry["verse_data"]), VerseText(entry["verse_text"]), Chunk(JStr(Header))]
      + ChunkEvents(StrSlices(Slices(entry["explanation"].s, ChunkSize))) + [StreamDone, Complete]
  {
    var chunks := ChunkEvents(StrSlices(Slices(entry["explanation"].s, ChunkSize)));
    assert ExplanationSection(entry) == [Chunk(JStr(Header))] + (chunks + [StreamDone]);
    assert ReplaySections(entry) == [VerseData(entry["verse_data"])] + [VerseText(entry["verse_text"])]
      + ([Chunk(JStr(Header))] + (chunks + [StreamDone]));
  }

  /**
    Asking the same question again once its answer is cached replays the stored verse
    data, verse text and explanation, the explanation in slices of 50 characters.
   */
  lemma ReplayAfterWrite(prompt: string, c: Collaborators)
    requires Respond(prompt, c).write.Some?
    ensures var w := Respond(prompt, c).write.value;
      var later := c.(cache := Some(c.cache.value[w.key := w.entry]));
      && w.entry["explanation"].JStr?
      && Respond(prompt, later) == Response([Status(CacheHitText)] + Replay(w.entry), None)
      && Replay(w.entry) ==
           [VerseData(w.entry["verse_data"]), VerseText(w.entry["verse_text"]), Chunk(JStr(Header))]
           + ChunkEvents(StrSlices(Slices(w.entry["explanation"].s, ChunkSize))) + [StreamDone, Complete]
  {
    var w := Respond(prompt, c).write.value;
    var later := c.(cache := Some(c.cache.value[w.key := w.entry]));
    var reference := c.extractReference(Strip(prompt)).value;
    assert CacheGet(later.cache, CacheKey(reference, Strip(prompt))) == Some(w.entry);
    assert w.entry != map[] by { assert "explanation" in w.entry; }
    CacheHitAnswer(prompt, reference, later, later);
    ReplayStored(w.entry, reference);
  }

  // ---------------------------------------------------------------- the agent

  /** The explanation part of `_stream_cached_response`, after its header chunk. */
  method ReplayStoredExplanation(explanation: Json) returns (events: seq<Event>)
    ensures events == ReplayExplanation(explanation)
  {
    match explanation
    case JStr(s) =>
      var parts := ChunksOf(s);
      events := ChunkEvents(StrSlices(parts)) + [StreamDone];
    case JArr(items) =>
      var parts := ChunksOf(items);
      events := ChunkEvents(ArrSlices(parts)) + [StreamDone];
    case JObj(fields) =>
      events := if fields == map[] then [StreamDone] else [Crash];
    case _ =>
      events := [Crash];
  }

  /** `BibleAgent._stream_cached_response(cached_data, response_handler)`. */
  method StreamCachedResponse(entry: Dict) returns (events: seq<Event>)
    ensures events == Replay(entry)
  {
    events := [];
    if "verse_data" in entry {
      events := events + [VerseData(entry["verse_data"])];
    }
    assert events == DataSection(entry);
    ghost var sent := events;
    if "verse_text" in entry {
      events := events + [VerseText(entry["verse_text"])];
    }
    assert events == sent + TextSection(entry);
    sent := events;
    if "explanation" in entry {
      var rest := ReplayStoredExplanation(entry["explanation"]);
      events := events + ([Chunk(JStr(Header))] + rest);
    }
    assert events == sent + ExplanationSection(entry);
    events := events + [Complete];
  }

  /**
    The `async for` loop of `assist`: each chunk is emitted, then added to
    `full_explanation`; a chunk that is not a str makes `+=` raise.
   */
  method StreamChunks(chunks: seq<Json>) returns (events: seq<Event>, fullExplanation: Option<string>)
    ensures (events, fullExplanation) == Streamed(chunks)
  {
    events := [];
    var full := "";
    var i := 0;
    while i < |chunks|
      invariant 0 <= i <= |chunks|
      invariant Streamed(chunks[..i]) == (events, Some(full))
    {
      assert chunks[..i + 1][..i] == chunks[..i];
      events := events + [Chunk(chunks[i])];
      if !chunks[i].JStr? {
        StreamedStops(chunks, i + 1);
        return events, None;
      }
      full := full + chunks[i].s;
      i := i + 1;
    }
    assert chunks[..i] == chunks;
    fullExplanation := Some(full);
  }

  /** The part of `assist` after the verse data is emitted: format, explain, cache. */
  method ExplainFetchedVerse(reference: string, userPrompt: string, key: string, verseData: Json, c: Collaborators)
    returns (trace: seq<Event>, write: Option<CacheWrite>)
    ensures Response(trace, write) == Present(reference, userPrompt, key, verseData, c)
  {
    var formatted := BibleService.FormatVerseText(verseData, c.render);
    if formatted.Raised? {
      return [Crash, Complete], None;
    }
    var chunks := LlmService.ExplainVerse(
      Show(Get(verseData.fields, "reference", JStr(reference)), c.render),
      Show(Get(verseData.fields, "text", JStr("")), c.render),
      Some(userPrompt), c.llmApi, c.parseJson);
    assert chunks == ExplanationChunks(reference, userPrompt, verseData.fields, c);
    var events, fullExplanation := StreamChunks(chunks);
    trace := [VerseText(JStr(formatted.value)), Status(GeneratingText), Chunk(JStr(Header))] + events;
    if fullExplanation.None? {
      return trace + [Crash, Complete], None;
    }
    if c.cache.Some? {
      write := Some(CacheWrite(key, Entry(reference, verseData, formatted.value, fullExplanation.value)));
    } else {
      write := None;
    }
    trace := trace + [StreamDone, Complete];
  }

  /** The part of `assist` from the verse request on. */
  method LookUpVerse(reference: string, userPrompt: string, key: string, c: Collaborators)
    returns (trace: seq<Event>, write: Option<CacheWrite>)
    ensures Response(trace, write) == Lookup(reference, userPrompt, key, c)
  {
    var fetched := BibleService.GetVerse(reference, c.bibleApi(BibleConfig.VerseUrl(c.translation, reference)));
    if fetched.Raised? {
      return [Crash, Complete], None;
    }
    var verseData := fetched.value;
    if !Truthy(verseData) {
      return [Error(JStr(FetchFailedText), 404), Complete], None;
    }
    var hasError := In("error", verseData);
    if hasError.Raised? {
      return [Crash, Complete], None;
    }
    if hasError.value {
      if !verseData.JObj? {
        return [Crash, Complete], None;
      }
      return [Error(Get(verseData.fields, "message", JStr(FetchFailedText)), 404), Complete], None;
    }
    trace, write := ExplainFetchedVerse(reference, userPrompt, key, verseData, c);
    trace := [VerseData(verseData)] + trace;
  }

  /**
    `BibleAgent.assist`: the events emitted for `prompt`, in order, and the cache write.
    An exception caught by the generic handler appears as `Crash` followed by `Complete`.
   */
  method Assist(prompt: string, c: Collaborators) returns (trace: seq<Event>, write: Option<CacheWrite>)
    ensures Response(trace, write) == Respond(prompt, c)
  {
    var userPrompt := Strip(prompt);
    if IsGreeting(userPrompt) {
      return [Greeting, Complete], None;
    }
    var found := c.extractReference(userPrompt);
    if found.None? || found.value == "" {
      return [Info(NoReferenceText), Complete], None;
    }
    var reference := found.value;
    var key := CacheKey(reference, userPrompt);
    if c.cache.Some? {
      var cached := CacheGet(c.cache, key);
      if cached.Some? && cached.value != map[] {
        var replayed := StreamCachedResponse(cached.value);
        return [Status(CacheHitText)] + replayed, None;
      }
    }
    trace, write := LookUpVerse(reference, userPrompt, key, c);
    trace := [Status(LookingUpText(reference))] + trace;
  }

  // ---------------------------------------------------------------- solver helpers
  // Sequence regroupings the proofs above use; they state nothing about the agent.

  lemma ConsFive<T>(a: T, b: T, c: T, d: T, e: T, xs: seq<T>, last: seq<T>)
    ensures [a] + ([b, c, d, e] + xs + last) == [a, b, c, d, e] + xs + last
  {
  }

  lemma ConsFour<T>(a: T, b: T, c: T, d: T, xs: seq<T>, last: seq<T>)
    ensures [a] + ([b, c, d] + xs + last) == [a, b, c, d] + xs + last
  {
  }

  lemma EndsWith<T>(s: seq<T>, tail: seq<T>)
    ensures (s + tail)[|s + tail| - |tail|..] == tail
  {
  }

  /** Events put in front of a trace do not change how it ends. */
  lemma FrontKeepsEnd<T>(front: seq<T>, s: seq<T>, tail: seq<T>)
    requires |s| >= |tail| && s[|s| - |tail|..] == tail
    ensures |front + s| >= |tail| && (front + s)[|front + s| - |tail|..] == tail
  {
    assert (front + s)[|front + s| - |tail|..] == s[|s| - |tail|..];
  }
}
