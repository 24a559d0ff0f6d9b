/**
  `LLMService`: the prompt both explain methods send, the line-by-line reading of
  the streamed chat completion in `explain_verse`, and the reply handling of
  `explain_verse_complete`. The endpoint is an input: a function from the request
  to what the endpoint answers. `json.loads` is an input too.
 */
module LlmService {
  import opened Wrappers
  import opened Text
  import opened PyJson

  /** `if user_question:`: a question is asked when it is given and not empty. */
  predicate QuestionAsked(question: Option<string>) {
    question.Some? && question.value != ""
  }

  const QuestionLead: string := "The user asks: \""
  const QuestionBridge: string := "\"\n\nHere is the relevant Bible verse:\n\n"
  const QuestionClose: string := "Please provide a comprehensive explanation that addresses the user's question."
  const PlainLead: string := "Please explain this Bible verse:\n\n"
  const PlainClose: string := "Provide context, meaning, and practical application."

  /** The verse as both templates show it: the bold reference, the text, then a blank line. */
  function VerseBlock(reference: string, text: string): string {
    "**" + reference + "**\n" + text + "\n\n"
  }

  /** The user message both explain methods build (the two f-string templates). */
  function Prompt(reference: string, text: string, question: Option<string>): string {
    if QuestionAsked(question) then
      QuestionLead + question.value + QuestionBridge + VerseBlock(reference, text) + QuestionClose
    else
      PlainLead + VerseBlock(reference, text) + PlainClose
  }

  /**
    The question template is chosen exactly when a question is asked, and it quotes the
    question first; either template carries the bold reference followed by the verse text.
   */
  lemma PromptTemplate(reference: string, text: string, question: Option<string>)
    ensures StartsWith(Prompt(reference, text, question), QuestionLead) <==> QuestionAsked(question)
    ensures QuestionAsked(question) ==> StartsWith(Prompt(reference, text, question), QuestionLead + question.value + "\"")
    ensures !QuestionAsked(question) ==> StartsWith(Prompt(reference, text, question), PlainLead)
    ensures Contains(Prompt(reference, text, question), VerseBlock(reference, text))
  {
    if QuestionAsked(question) {
      QuestionPrompt(reference, text, question.value);
    } else {
      PlainPrompt(reference, text, question);
    }
  }

  lemma QuestionPrompt(reference: string, text: string, q: string)
    requires q != ""
    ensures StartsWith(Prompt(reference, text, Some(q)), QuestionLead + q + "\"")
    ensures StartsWith(Prompt(reference, text, Some(q)), QuestionLead)
    ensures Contains(Prompt(reference, text, Some(q)), VerseBlock(reference, text))
  {
    var verse := VerseBlock(reference, text);
    assert QuestionBridge[0] == '"';
    QuotedStart(QuestionLead, q, QuestionBridge, verse, QuestionClose);
    ContainsMiddle(QuestionLead + q + QuestionBridge, verse, QuestionClose);
  }

  /** A template that continues the question with a closing quote starts with the quoted question. */
  lemma QuotedStart(lead: string, q: string, bridge: string, verse: string, close: string)
    requires |bridge| > 0 && bridge[0] == '"'
    ensures StartsWith(lead + q + bridge + verse + close, lead + q + "\"")
    ensures StartsWith(lead + q + bridge + verse + close, lead)
  {
    var s := lead + q + bridge + verse + close;
    var n := |lead| + |q|;
    assert s[..n] == lead + q;
    assert s[..n + 1] == s[..n] + [s[n]];
    assert s[..|lead|] == lead;
  }

  lemma PlainPrompt(reference: string, text: string, question: Option<string>)
    requires !QuestionAsked(question)
    ensures !StartsWith(Prompt(reference, text, question), QuestionLead)
    ensures StartsWith(Prompt(reference, text, question), PlainLead)
    ensures Contains(Prompt(reference, text, question), VerseBlock(reference, text))
  {
    var verse := VerseBlock(reference, text);
    StartsWithConcat(PlainLead, verse, PlainClose);
    ContainsMiddle(PlainLead, verse, PlainClose);
    assert Prompt(reference, text, question)[0] == 'P' && QuestionLead[0] == 'T';
  }

  /** The part of the chat-completion payload the model keeps: the user message and the stream flag. */
  datatype ChatRequest = ChatRequest(prompt: string, stream: bool)

  /** The request `explain_verse` sends. */
  function StreamingRequest(reference: string, text: string, question: Option<string>): ChatRequest {
    ChatRequest(Prompt(reference, text, question), true)
  }

  /** The request `explain_verse_complete` sends. */
  function CompleteRequest(reference: string, text: string, question: Option<string>): ChatRequest {
    ChatRequest(Prompt(reference, text, question), false)
  }

  /** An `aiohttp.ClientError`, or any other exception, with its text `str(e)`. */
  datatype Failure = ClientFailure(reason: string) | OtherFailure(reason: string)

  /**
    How reading the body ended: after its last line, or by an exception while reading
    (a broken connection, or text that is not UTF-8). For a 200 reply this is the
    `async for` over the lines; for any other status it is `await response.text()`.
   */
  datatype StreamEnd = Exhausted | Broken(failure: Failure)

  /** What the streaming request produced: a response with status and body lines, or an exception before any. */
  datatype LlmReply =
    | Reply(status: nat, lines: seq<string>, end: StreamEnd)
    | NoReply(failure: Failure)

  /** The chunk `explain_verse` yields for an exception caught by its outer handlers. */
  function FailureChunk(f: Failure): Json {
    match f
    case ClientFailure(reason) => JStr("Error: Network error occurred - " + reason)
    case OtherFailure(reason) => JStr("Error: An unexpected error occurred - " + reason)
  }

  /** The chunk `explain_verse` yields for a non-200 status. */
  function StatusChunk(status: nat): Json {
    JStr("Error: Unable to generate explanation (Status: " + NatToString(status) + ")")
  }

  const DataPrefix: string := "data: "
  const DoneLine: string := "data: [DONE]"

  /**
    The text handed to `json.loads` for one raw line: the stripped line without its first
    six characters, when it is a data line. Empty lines, the `[DONE]` sentinel and lines
    without the exact prefix "data: " give nothing.
   */
  function DataPayload(raw: string): (payload: Option<string>)
    ensures payload.Some? <==> Strip(raw) != "" && Strip(raw) != DoneLine && StartsWith(Strip(raw), DataPrefix)
    ensures payload.Some? ==> DataPrefix + payload.value == Strip(raw) && payload.value != "[DONE]"
  {
    var line := Strip(raw);
    if line == "" || line == DoneLine then None
    else if !StartsWith(line, DataPrefix) then None
    else
      assert line == line[..6] + line[6..];
      Some(line[6..])
  }

  /**
    `choices[0].delta.content` of one decoded event, when it is truthy. A missing
    "choices", an empty list, a missing "delta" or "content", and every lookup that
    Python would fail on (and the loop catches) give nothing.
   */
  function DeltaContent(data: Json): (content: Option<Json>)
    ensures content.Some? ==> Truthy(content.value)
  {
    if !data.JObj? || "choices" !in data.fields then None
    else
      match data.fields["choices"]
      case JArr(choices) =>
        if choices == [] || !choices[0].JObj? then None
        else
          var delta := Get(choices[0].fields, "delta", JObj(map[]));
          if !delta.JObj? then None
          else
            var content := Get(delta.fields, "content", JStr(""));
            if Truthy(content) then Some(content) else None
      case _ => None
  }

  /** A chunk comes out of an event only along choices[0].delta.content, and only when that value is truthy. */
  lemma DeltaContentPath(data: Json, c: Json)
    ensures DeltaContent(data) == Some(c) <==>
      && data.JObj? && "choices" in data.fields
      && data.fields["choices"].JArr? && |data.fields["choices"].items| > 0
      && data.fields["choices"].items[0].JObj?
      && "delta" in data.fields["choices"].items[0].fields
      && data.fields["choices"].items[0].fields["delta"].JObj?
      && "content" in data.fields["choices"].items[0].fields["delta"].fields
      && data.fields["choices"].items[0].fields["delta"].fields["content"] == c
      && Truthy(c)
  {
  }

  /** The chunk one raw line yields, if any. */
  function LineContent(raw: string, parse: string -> Option<Json>): (content: Option<Json>)
    ensures content.Some? ==> DataPayload(raw).Some? && parse(DataPayload(raw).value).Some?
    ensures content.Some? ==> Truthy(content.value)
  {
    match DataPayload(raw)
    case None => None
    case Some(payload) =>
      match parse(payload)
      case None => None
      case Some(data) => DeltaContent(data)
  }

  function Yielded(content: Option<Json>): seq<Json> {
    if content.Some? then [content.value] else []
  }

  /** The chunks a sequence of lines yields, line after line. */
  function LineContents(lines: seq<string>, parse: string -> Option<Json>): (chunks: seq<Json>)
    ensures |chunks| <= |lines|
    ensures forall i :: 0 <= i < |chunks| ==> Truthy(chunks[i])
  {
    if lines == [] then []
    else
      var n := |lines| - 1;
      LineContents(lines[..n], parse) + Yielded(LineContent(lines[n], parse))
  }

  /** Reading lines is a left-to-right fold: the chunks of `a + b` are those of `a` followed by those of `b`. */
  lemma {:induction false} LineContentsAppend(a: seq<string>, b: seq<string>, parse: string -> Option<Json>)
    ensures LineContents(a + b, parse) == LineContents(a, parse) + LineContents(b, parse)
  {
    if b != [] {
      var n := |b| - 1;
      assert (a + b)[..|a + b| - 1] == a + b[..n];
      LineContentsAppend(a, b[..n], parse);
    } else {
      assert a + b == a;
    }
  }

  /** A line that yields nothing (blank, sentinel, not a data line, or not JSON) is skipped and reading goes on. */
  lemma SkippedLine(a: seq<string>, line: string, b: seq<string>, parse: string -> Option<Json>)
    requires LineContent(line, parse).None?
    ensures LineContents(a + [line] + b, parse) == LineContents(a, parse) + LineContents(b, parse)
  {
    LineContentsAppend(a + [line], b, parse);
    assert (a + [line])[..|a|] == a;
    assert LineContents(a + [line], parse) == LineContents(a, parse);
  }

  /** Everything `explain_verse` yields for one reply. */
  function Explanation(reply: LlmReply, parse: string -> Option<Json>): seq<Json> {
    match reply
    case NoReply(failure) => [FailureChunk(failure)]
    case Reply(status, lines, end) =>
      if status != 200 then (if end.Broken? then [FailureChunk(end.failure)] else [StatusChunk(status)])
      else LineContents(lines, parse) + (if end.Broken? then [FailureChunk(end.failure)] else [])
  }

  /**
    A non-200 status yields exactly one chunk and no line content. The chunk names the
    status when the error body could be read, and is the failure chunk of the read otherwise.
   */
  lemma ErrorStatusChunk(status: nat, lines: seq<string>, end: StreamEnd, parse: string -> Option<Json>)
    requires status != 200
    ensures end.Exhausted? ==> Explanation(Reply(status, lines, end), parse) == [StatusChunk(status)]
    ensures end.Broken? ==> Explanation(Reply(status, lines, end), parse) == [FailureChunk(end.failure)]
    ensures Contains(StatusChunk(status).s, NatToString(status))
  {
    ContainsInContext("Error: Unable to generate explanation (Status: ", NatToString(status), ")", NatToString(status)) by {
      assert OccursAt(NatToString(status), NatToString(status), 0);
    }
  }

  /**
    `LLMService.explain_verse`: sends the streaming request, then reads the reply line by
    line, skipping what carries no content and yielding each delta in line order.
   */
  method ExplainVerse(reference: string, text: string, question: Option<string>,
                      endpoint: ChatRequest -> LlmReply, parse: string -> Option<Json>)
    returns (chunks: seq<Json>)
    ensures chunks == Explanation(endpoint(StreamingRequest(reference, text, question)), parse)
  {
    var reply := endpoint(StreamingRequest(reference, text, question));
    if reply.NoReply? {
      return [FailureChunk(reply.failure)];
    }
    if reply.status != 200 {
      if reply.end.Broken? {
        return [FailureChunk(reply.end.failure)];
      }
      return [StatusChunk(reply.status)];
    }
    chunks := ReadLines(reply.lines, parse);
    if reply.end.Broken? {
      chunks := chunks + [FailureChunk(reply.end.failure)];
    }
  }

  /** The `async for line in response.content` loop: every line in order, each yielding at most one chunk. */
  method ReadLines(lines: seq<string>, parse: string -> Option<Json>) returns (chunks: seq<Json>)
    ensures chunks == LineContents(lines, parse)
  {
    chunks := [];
    var i := 0;
    while i < |lines|
      invariant 0 <= i <= |lines|
      invariant chunks == LineContents(lines[..i], parse)
    {
      assert lines[..i + 1][..i] == lines[..i];
      var content := ReadLine(lines[i], parse);
      chunks := chunks + Yielded(content);
      i := i + 1;
    }
    assert lines[..|lines|] == lines;
  }

  /** The body of the read loop for one raw line; returning `None` is the loop's `continue`. */
  method ReadLine(raw: string, parse: string -> Option<Json>) returns (content: Option<Json>)
    ensures content == LineContent(raw, parse)
  {
    var line := Strip(raw);
    if line == "" || line == DoneLine {
      return None;
    }
    if !StartsWith(line, DataPrefix) {
      return None;
    }
    var data := parse(line[6..]);
    if data.None? {
      return None;
    }
    content := DeltaContent(data.value);
  }

  /**
    What the non-streaming request produced: a response with status and body, or an
    exception. For a 200 reply `body` is the JSON decoding of `response.json()`; for any
    other status `Unparseable(reason)` is `await response.text()` raising, and a parsed
    body is one that was read.
   */
  datatype CompleteReply = Answered(status: nat, body: Body) | Unanswered(reason: string)

  /**
    The result of `explain_verse_complete`: the content, a fixed or exception error
    text, or the error text of a failed lookup (whose `str(e)` part is Python's and
    not modelled).
   */
  datatype Completion = Answer(content: Json) | ErrorText(text: string) | LookupFailed

  /** `data["choices"][0]["message"]["content"]`, when every lookup succeeds. */
  function MessageContent(data: Json): Option<Json> {
    if !data.JObj? || "choices" !in data.fields then None
    else
      var choices := data.fields["choices"];
      if !choices.JArr? || choices.items == [] || !choices.items[0].JObj? then None
      else
        var first := choices.items[0].fields;
        if "message" !in first || !first["message"].JObj? || "content" !in first["message"].fields then None
        else Some(first["message"].fields["content"])
  }

  /** `LLMService.explain_verse_complete`. */
  function ExplainVerseComplete(reference: string, text: string, question: Option<string>,
                                endpoint: ChatRequest -> CompleteReply): (r: Completion)
    ensures var reply := endpoint(CompleteRequest(reference, text, question));
      && (reply.Answered? && reply.status != 200 && reply.body.Parsed? ==> r == ErrorText("Error: Unable to generate explanation"))
      && (reply.Answered? && reply.status != 200 && reply.body.Unparseable? ==> r == ErrorText("Error: " + reply.body.reason))
      && (r.Answer? <==> reply.Answered? && reply.status == 200 && reply.body.Parsed?
                         && MessageContent(reply.body.value).Some?)
    ensures var reply := endpoint(CompleteRequest(reference, text, question));
      reply.Answered? && reply.status == 200 && reply.body.Parsed? && MessageContent(reply.body.value).Some? ==>
        r == Answer(MessageContent(reply.body.value).value)
    ensures var reply := endpoint(CompleteRequest(reference, text, question));
      && (reply.Unanswered? ==> r == ErrorText("Error: " + reply.reason))
      && (reply.Answered? && reply.status == 200 && reply.body.Unparseable? ==> r == ErrorText("Error: " + reply.body.reason))
      && (reply.Answered? && reply.status == 200 && reply.body.Parsed? && MessageContent(reply.body.value).None? ==>
            r == LookupFailed)
    ensures r.ErrorText? ==> StartsWith(r.text, "Error: ")
  {
    match endpoint(CompleteRequest(reference, text, question))
    case Unanswered(reason) => ErrorText("Error: " + reason)
    case Answered(status, body) =>
      if status != 200 then
        match body
        case Unparseable(reason) => ErrorText("Error: " + reason)
        case Parsed(_) => ErrorText("Error: Unable to generate explanation")
      else
        match body
        case Unparseable(reason) => ErrorText("Error: " + reason)
        case Parsed(data) =>
          match MessageContent(data)
          case Some(content) => Answer(content)
          case None => LookupFailed
  }

  /** Both explain methods send the same prompt; only the stream flag differs. */
  lemma SamePromptBothWays(reference: string, text: string, question: Option<string>)
    ensures StreamingRequest(reference, text, question).prompt == CompleteRequest(reference, text, question).prompt
    ensures StreamingRequest(reference, text, question).stream && !CompleteRequest(reference, text, question).stream
  {
  }
}
