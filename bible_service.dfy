/**
  `BibleService`: the result of one verse request as `get_verse` gives it (a
  dictionary, or the exception it lets out), the sequential fill of `get_multiple_verses`, and `format_verse_text`.
  The HTTP exchange itself is an input: `Fetch` is what the request to the verse
  URL produced.
 */
module BibleService {
  import opened Wrappers
  import opened Text
  import opened PyJson

  /**
    The outcome of the GET request: a response with its status and body, an
    `aiohttp.ClientConnectionError` (which includes aiohttp's socket-read timeouts),
    or any other exception, the overall request timeout among them.
   */
  datatype Fetch =
    | Reply(status: nat, body: Body)
    | ConnectionFailure
    | OtherFailure

  const NotFoundMessage: string :=
    "Please check the verse reference and try again. Make sure the book name, chapter, and verse are correct."
  const ConnectionMessage: string :=
    "Could not connect to the Bible API. Please check your internet connection."
  const StatusPrefix: string := "The Bible API returned an error (Status: "

  /** The error dictionary the 404, other-status and connection branches of `get_verse` return. */
  function ErrorResult(kind: string, reference: string, message: string): Json {
    JObj(map["error" := JStr(kind), "reference" := JStr(reference), "message" := JStr(message)])
  }

  /** `r` is an error dictionary about `reference`: exactly the keys error, reference and message, all strings. */
  predicate IsErrorFor(r: Json, reference: string) {
    && r.JObj?
    && r.fields.Keys == {"error", "reference", "message"}
    && r.fields["error"].JStr? && r.fields["message"].JStr?
    && r.fields["reference"] == JStr(reference)
  }

  /** The error kind of an error dictionary. */
  function Kind(r: Json): string
    requires r.JObj? && "error" in r.fields && r.fields["error"].JStr?
  {
    r.fields["error"].s
  }

  /** A status-200 response whose body decoded to a dict. */
  predicate Delivered(outcome: Fetch) {
    outcome.Reply? && outcome.status == 200 && outcome.body.Parsed? && outcome.body.value.JObj?
  }

  /** The failures `get_verse` turns into an error dictionary: a connection error, or a status other than 200. */
  predicate Refused(outcome: Fetch) {
    outcome.ConnectionFailure? || (outcome.Reply? && outcome.status != 200)
  }

  /**
    `BibleService.get_verse(reference)` once the request has produced `outcome`.

    A 200 body that does not decode makes `response.json()` raise, and one that is not
    a dict makes the log line's `data.get(...)` raise. That exception, like any other
    that is not a `ClientConnectionError`, reaches `except aiohttp.ClientTimeout`.
    `ClientTimeout` is not an exception class, so evaluating that clause raises
    `TypeError` out of `get_verse`, and the `except Exception` clause is never reached.
   */
  function GetVerse(reference: string, outcome: Fetch): (r: Outcome<Json>)
    ensures Delivered(outcome) ==> r == Returned(outcome.body.value)
    ensures Refused(outcome) ==> r.Returned? && IsErrorFor(r.value, reference)
    ensures !Delivered(outcome) && !Refused(outcome) ==> r.Raised?
  {
    match outcome
    case Reply(status, body) =>
      if status == 200 then
        if body.Parsed? && body.value.JObj? then Returned(body.value) else Raised
      else if status == 404 then
        Returned(ErrorResult("Verse not found", reference, NotFoundMessage))
      else
        Returned(ErrorResult("API error", reference, StatusPrefix + NatToString(status) + ")"))
    case ConnectionFailure =>
      Returned(ErrorResult("Connection error", reference, ConnectionMessage))
    case OtherFailure =>
      Raised
  }

  /**
    The error kind of each refused request: "Verse not found" for 404, "API error" with
    the status in the message for any other status but 200, "Connection error" for a
    connection failure. No outcome yields the "Timeout" or "Unexpected error" dictionary:
    every other failure, and an undecodable or non-dict 200 body, raises.
   */
  lemma GetVerseKinds(reference: string, outcome: Fetch)
    ensures outcome.Reply? && outcome.status == 404 ==>
      Kind(GetVerse(reference, outcome).value) == "Verse not found"
    ensures outcome.Reply? && outcome.status != 200 && outcome.status != 404 ==>
      var r := GetVerse(reference, outcome).value;
      Kind(r) == "API error" && Contains(r.fields["message"].s, NatToString(outcome.status))
    ensures outcome.ConnectionFailure? ==> Kind(GetVerse(reference, outcome).value) == "Connection error"
    ensures GetVerse(reference, outcome).Raised? <==>
      outcome.OtherFailure? || (outcome.Reply? && outcome.status == 200 && !Delivered(outcome))
    ensures Refused(outcome) ==>
      Kind(GetVerse(reference, outcome).value) in {"Verse not found", "API error", "Connection error"}
  {
    if outcome.Reply? && outcome.status != 200 && outcome.status != 404 {
      ContainsInContext(StatusPrefix, NatToString(outcome.status), ")", NatToString(outcome.status));
    }
  }

  /**
    What `get_multiple_verses` produces after querying `references` in order, the i-th
    request having produced `outcomes[i]`: the filled dictionary, or `Raised` as soon
    as one `get_verse` raises, since the loop does not catch it.
   */
  function Gathered(references: seq<string>, outcomes: seq<Fetch>): (m: Outcome<map<string, Json>>)
    requires |outcomes| == |references|
    ensures m.Raised? <==> exists i :: 0 <= i < |references| && GetVerse(references[i], outcomes[i]).Raised?
    ensures m.Returned? ==> m.value.Keys == set r | r in references
  {
    if references == [] then Returned(map[])
    else
      var n := |references| - 1;
      var earlier := Gathered(references[..n], outcomes[..n]);
      assert references == references[..n] + [references[n]];
      assert forall i :: 0 <= i < n ==> references[..n][i] == references[i] && outcomes[..n][i] == outcomes[i];
      match earlier
      case Raised => Raised
      case Returned(found) =>
        match GetVerse(references[n], outcomes[n])
        case Raised => Raised
        case Returned(verse) => Returned(found[references[n] := verse])
  }

  /**
    When the loop finishes, each reference maps to the result of its LAST request: a
    reference that is not repeated later in the list keeps the result of the request
    made for it.
   */
  lemma {:induction false} LastResultWins(references: seq<string>, outcomes: seq<Fetch>, i: nat)
    requires |outcomes| == |references| && i < |references|
    requires references[i] !in references[i + 1..]
    requires Gathered(references, outcomes).Returned?
    ensures GetVerse(references[i], outcomes[i]).Returned?
    ensures Gathered(references, outcomes).value[references[i]] == GetVerse(references[i], outcomes[i]).value
  {
    var n := |references| - 1;
    if i < n {
      assert references[n] in references[i + 1..];
      assert references[..n][i + 1..] == references[i + 1..n];
      assert references[..n][i] == references[i] && outcomes[..n][i] == outcomes[i];
      LastResultWins(references[..n], outcomes[..n], i);
    }
  }

  /** `get_multiple_verses`: one request per reference, in list order, each result stored under its reference. */
  method GetMultipleVerses(references: seq<string>, outcomes: seq<Fetch>) returns (results: Outcome<map<string, Json>>)
    requires |outcomes| == |references|
    ensures results == Gathered(references, outcomes)
  {
    var filled: map<string, Json> := map[];
    for i := 0 to |references|
      invariant Gathered(references[..i], outcomes[..i]) == Returned(filled)
    {
      assert references[..i + 1][..i] == references[..i];
      assert outcomes[..i + 1][..i] == outcomes[..i];
      var verse := GetVerse(references[i], outcomes[i]);
      if verse.Raised? {
        return Raised;
      }
      filled := filled[references[i] := verse.value];
    }
    assert references[..|references|] == references;
    assert outcomes[..|outcomes|] == outcomes;
    results := Returned(filled);
  }

  const ErrorMark: string := "\U{274C}"
  const VerseTextTail: string := "\n        "

  /**
    `format_verse_text(verse_data)`. `Raised` where Python raises: a dictionary with
    "error" but no "message" (KeyError), a value that is not a dict (TypeError or
    AttributeError), a "text" that is not a str (AttributeError on `.strip()`).
   */
  function FormatVerseText(data: Json, render: Json -> string): (r: Outcome<string>)
    ensures r.Returned? ==> data.JObj?
  {
    match In("error", data)
    case Raised => Raised
    case Returned(hasError) =>
      if hasError then
        if data.JObj? && "message" in data.fields then Returned(ErrorMark + " " + Show(data.fields["message"], render))
        else Raised
      else if !data.JObj? then Raised
      else
        var fields := data.fields;
        var reference := Get(fields, "reference", JStr("Unknown"));
        var text := Get(fields, "text", JStr(""));
        var translation := Get(fields, "translation_name", JStr("King James Version"));
        if !text.JStr? then Raised
        else
          Returned(Strip("\n**" + Show(reference, render) + "** (" + Show(translation, render) + ")\n\n"
                         + Strip(text.s) + VerseTextTail))
  }

  /** The layout `format_verse_text` produces for a verse: bold reference, translation, then the stripped text. */
  function VerseLayout(reference: string, translation: string, text: string): string {
    "**" + reference + "** (" + translation + ")" + (if Strip(text) == "" then "" else "\n\n" + Strip(text))
  }

  /** A dictionary with "error" and "message" formats as the error mark and the message, whatever else it holds. */
  lemma ErrorKeyWins(fields: Dict, render: Json -> string)
    requires "error" in fields && "message" in fields
    ensures FormatVerseText(JObj(fields), render) == Returned(ErrorMark + " " + Show(fields["message"], render))
  {
  }

  /**
    A verse dictionary formats as `VerseLayout`: a missing reference reads "Unknown",
    a missing translation "King James Version", a missing text "". The result starts
    with the bold reference, and the blank line before the text is dropped when the
    stripped text is empty.
   */
  lemma VerseFormat(fields: Dict, render: Json -> string)
    requires "error" !in fields
    requires "text" in fields ==> fields["text"].JStr?
    ensures FormatVerseText(JObj(fields), render) == Returned(VerseLayout(
      Show(Get(fields, "reference", JStr("Unknown")), render),
      Show(Get(fields, "translation_name", JStr("King James Version")), render),
      Get(fields, "text", JStr("")).s))
  {
    var text := Get(fields, "text", JStr(""));
    assert text.JStr?;
    LayoutOfStrip(
      Show(Get(fields, "reference", JStr("Unknown")), render),
      Show(Get(fields, "translation_name", JStr("King James Version")), render),
      text.s);
  }

  /** The outer `.strip()` of the f-string removes exactly the newline in front and the blank tail. */
  lemma LayoutOfStrip(reference: string, translation: string, text: string)
    ensures Strip("\n**" + reference + "** (" + translation + ")\n\n" + Strip(text) + VerseTextTail)
         == VerseLayout(reference, translation, text)
  {
    var stripped := Strip(text);
    var head := "**" + reference + "** (" + translation + ")";
    var core := VerseLayout(reference, translation, text);
    var tail := if stripped == "" then "\n\n" + VerseTextTail else VerseTextTail;
    assert "\n**" + reference + "** (" + translation + ")\n\n" + stripped + VerseTextTail == "\n" + core + tail;
    assert core[0] == '*';
    assert core[|core| - 1] == if stripped == "" then ')' else stripped[|stripped| - 1];
    StripExact("\n", core, tail);
  }
}
