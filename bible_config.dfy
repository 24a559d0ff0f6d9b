/**
  The Bible API settings: the class attributes of `BibleConfig`, computed once
  from the environment, and the verse URL built from them.
 */
module BibleConfig {
  import opened Wrappers
  import opened Text

  const BaseUrl: string := "https://bible-api.com"

  /** The process environment, as `os.getenv` sees it. */
  type Env = map<string, string>

  /** `os.getenv(name, default)`. */
  function GetEnv(env: Env, name: string, default: string): string {
    if name in env then env[name] else default
  }

  /** The class attributes of `BibleConfig` once the module has been imported. */
  datatype Settings = Settings(
    translation: string,
    timeout: int,
    maxRetries: int,
    enableCache: bool,
    cacheTtlHours: int)

  /**
    The cache flag: `value.lower() == "true"`. Exactly the four letters of "true",
    each in either case, switch the cache on.
   */
  function CacheFlag(value: string): (r: bool)
    ensures r <==> |value| == 4 && value[0] in "tT" && value[1] in "rR" && value[2] in "uU" && value[3] in "eE"
  {
    var lowered := Lower(value);
    assert |lowered| == 4 ==> (lowered == "true" <==> lowered[0] == 't' && lowered[1] == 'r' && lowered[2] == 'u' && lowered[3] == 'e');
    lowered == "true"
  }

  /**
    The attributes computed at import time. `None` when one of the `int(...)` conversions
    raises ValueError, which aborts the import.
   */
  function Load(env: Env): Option<Settings> {
    FromStrings(
      GetEnv(env, "BIBLE_TRANSLATION", "KJV"),
      GetEnv(env, "BIBLE_API_TIMEOUT", "10"),
      GetEnv(env, "BIBLE_API_MAX_RETRIES", "3"),
      GetEnv(env, "BIBLE_ENABLE_CACHE", "True"),
      GetEnv(env, "BIBLE_CACHE_TTL_HOURS", "168"))
  }

  /** The attributes from the raw variable values, in the order the class body converts them. */
  function FromStrings(translation: string, timeout: string, retries: string, flag: string, ttl: string): Option<Settings> {
    var t, r, h := ParseInt(timeout), ParseInt(retries), ParseInt(ttl);
    if t.None? || r.None? || h.None? then None
    else Some(Settings(translation, t.value, r.value, CacheFlag(flag), h.value))
  }

  /**
    With none of the variables set: KJV, a 10 s timeout, 3 retries, the cache on and
    a time-to-live of 168 hours.
   */
  lemma DefaultSettings(env: Env)
    requires "BIBLE_TRANSLATION" !in env && "BIBLE_API_TIMEOUT" !in env && "BIBLE_API_MAX_RETRIES" !in env
    requires "BIBLE_ENABLE_CACHE" !in env && "BIBLE_CACHE_TTL_HOURS" !in env
    ensures Load(env) == Some(Settings("KJV", 10, 3, true, 168))
  {
    LoadSettings(env);
    DefaultNumbers();
  }

  /**
    Every attribute is read from its variable when that is set and is the default
    otherwise; the import fails exactly when one of the three numbers does not parse.
   */
  lemma LoadSettings(env: Env)
    ensures Load(env).Some? <==>
      && ParseInt(GetEnv(env, "BIBLE_API_TIMEOUT", "10")).Some?
      && ParseInt(GetEnv(env, "BIBLE_API_MAX_RETRIES", "3")).Some?
      && ParseInt(GetEnv(env, "BIBLE_CACHE_TTL_HOURS", "168")).Some?
    ensures Load(env).Some? ==> var s := Load(env).value;
      && s.translation == (if "BIBLE_TRANSLATION" in env then env["BIBLE_TRANSLATION"] else "KJV")
      && s.enableCache == ("BIBLE_ENABLE_CACHE" !in env || CacheFlag(env["BIBLE_ENABLE_CACHE"]))
      && ("BIBLE_API_TIMEOUT" in env ==> Some(s.timeout) == ParseInt(env["BIBLE_API_TIMEOUT"]))
      && ("BIBLE_API_TIMEOUT" !in env ==> s.timeout == 10)
      && ("BIBLE_API_MAX_RETRIES" in env ==> Some(s.maxRetries) == ParseInt(env["BIBLE_API_MAX_RETRIES"]))
      && ("BIBLE_API_MAX_RETRIES" !in env ==> s.maxRetries == 3)
      && ("BIBLE_CACHE_TTL_HOURS" in env ==> Some(s.cacheTtlHours) == ParseInt(env["BIBLE_CACHE_TTL_HOURS"]))
      && ("BIBLE_CACHE_TTL_HOURS" !in env ==> s.cacheTtlHours == 168)
  {
    var timeout, retries, ttl := GetEnv(env, "BIBLE_API_TIMEOUT", "10"), GetEnv(env, "BIBLE_API_MAX_RETRIES", "3"), GetEnv(env, "BIBLE_CACHE_TTL_HOURS", "168");
    var flag := GetEnv(env, "BIBLE_ENABLE_CACHE", "True");
    FromStringsReads(GetEnv(env, "BIBLE_TRANSLATION", "KJV"), timeout, retries, flag, ttl);
    DefaultNumbers();
    assert CacheFlag("True");
  }

  /** The attributes are the translation, the parsed numbers and the flag, when all three numbers parse. */
  lemma FromStringsReads(translation: string, timeout: string, retries: string, flag: string, ttl: string)
    ensures FromStrings(translation, timeout, retries, flag, ttl).Some? <==>
      ParseInt(timeout).Some? && ParseInt(retries).Some? && ParseInt(ttl).Some?
    ensures FromStrings(translation, timeout, retries, flag, ttl).Some? ==>
      FromStrings(translation, timeout, retries, flag, ttl).value ==
        Settings(translation, ParseInt(timeout).value, ParseInt(retries).value, CacheFlag(flag), ParseInt(ttl).value)
  {
  }

  /** The three numeric defaults parse to their values. */
  lemma DefaultNumbers()
    ensures ParseInt("10") == Some(10) && ParseInt("3") == Some(3) && ParseInt("168") == Some(168)
  {
    assert NatToString(10) == "10" && NatToString(3) == "3";
    assert NatToString(16) == "16";
    assert NatToString(168) == "168";
    ParseIntOfNatToString(10);
    ParseIntOfNatToString(3);
    ParseIntOfNatToString(168);
  }

  /** Only a spelling of "true" enables the cache: "1", "yes" and " true" disable it. */
  lemma CacheFlagExamples()
    ensures CacheFlag("True") && CacheFlag("TRUE") && CacheFlag("true")
    ensures !CacheFlag("1") && !CacheFlag("yes") && !CacheFlag(" true") && !CacheFlag("")
  {
  }

  /** `s.replace(" ", "+")`. */
  function ReplaceSpaces(s: string): string {
    seq(|s|, i requires 0 <= i < |s| => if s[i] == ' ' then '+' else s[i])
  }

  /** The path segment of the verse URL: the stripped reference with each space turned into '+'. */
  function CleanRef(reference: string): (r: string)
    ensures ' ' !in r
    ensures |r| == |Strip(reference)|
    ensures forall i :: 0 <= i < |r| ==> r[i] == if Strip(reference)[i] == ' ' then '+' else Strip(reference)[i]
  {
    ReplaceSpaces(Strip(reference))
  }

  /** `BibleConfig.get_verse_url(reference)`. */
  function VerseUrl(translation: string, reference: string): string {
    BaseUrl + "/" + CleanRef(reference) + "?translation=" + translation
  }

  /** `s.replace("+", " ")`, used only to state what the URL keeps of the reference. */
  function ReplacePluses(s: string): string {
    seq(|s|, i requires 0 <= i < |s| => if s[i] == '+' then ' ' else s[i])
  }

  /**
    Reads the reference back out of a verse URL for the given translation:
    the text between the base URL and the query, with '+' read as a space.
   */
  function ReferenceOfUrl(url: string, translation: string): Option<string> {
    var head := BaseUrl + "/";
    var tail := "?translation=" + translation;
    if |head| + |tail| <= |url| && url[..|head|] == head && url[|url| - |tail|..] == tail then
      Some(ReplacePluses(url[|head|..|url| - |tail|]))
    else None
  }

  /**
    The URL carries the stripped reference as it is (no percent-encoding) but for '+' and
    space, which it cannot tell apart: reading it back gives the stripped reference with
    every '+' read as a space.
   */
  lemma UrlReadsBack(translation: string, reference: string)
    ensures ReferenceOfUrl(VerseUrl(translation, reference), translation) == Some(ReplacePluses(Strip(reference)))
  {
    var head, tail := BaseUrl + "/", "?translation=" + translation;
    var clean := CleanRef(reference);
    var url := VerseUrl(translation, reference);
    assert url == head + clean + tail;
    assert url[..|head|] == head;
    assert url[|url| - |tail|..] == tail;
    assert url[|head|..|url| - |tail|] == clean;
    assert ReplacePluses(clean) == ReplacePluses(Strip(reference));
  }

  /**
    The URL loses nothing of a reference without '+': every character of the stripped
    reference passes through unchanged, and only spaces change, each into one '+'.
   */
  lemma UrlRoundTrip(translation: string, reference: string)
    requires '+' !in reference
    ensures ReferenceOfUrl(VerseUrl(translation, reference), translation) == Some(Strip(reference))
  {
    UrlReadsBack(translation, reference);
    var stripped := Strip(reference);
    forall i | 0 <= i < |stripped| ensures stripped[i] != '+' {
      assert stripped[i] == reference[LeadingSpaces(reference) + i];
    }
    assert ReplacePluses(stripped) == stripped;
  }

  /** A '+' and a space in a reference give the same URL, so the URL cannot tell them apart. */
  lemma PlusAndSpaceShareUrl(translation: string)
    ensures VerseUrl(translation, "John 3:16") == VerseUrl(translation, "John+3:16")
  {
    assert "John 3:16" == "John" + " " + "3:16" && "John+3:16" == "John" + "+" + "3:16";
    SpaceOrPlusUrl(translation, "John", "3:16");
  }

  /** Between two words that need no stripping, a space and a '+' give the same URL. */
  lemma SpaceOrPlusUrl(translation: string, x: string, y: string)
    requires x != [] && !IsSpace(x[0]) && y != [] && !IsSpace(y[|y| - 1])
    ensures VerseUrl(translation, x + " " + y) == VerseUrl(translation, x + "+" + y)
  {
    var spaced, plussed := x + " " + y, x + "+" + y;
    assert spaced[0] == x[0] && spaced[|spaced| - 1] == y[|y| - 1];
    assert plussed[0] == x[0] && plussed[|plussed| - 1] == y[|y| - 1];
    StripStripped(spaced);
    StripStripped(plussed);
    SpaceOrPlus(x, y);
    assert CleanRef(spaced) == CleanRef(plussed);
  }

  lemma SpaceOrPlus(x: string, y: string)
    ensures ReplaceSpaces(x + " " + y) == ReplaceSpaces(x + "+" + y)
  {
    var spaced, plussed := x + " " + y, x + "+" + y;
    forall i | 0 <= i < |spaced| ensures ReplaceSpaces(spaced)[i] == ReplaceSpaces(plussed)[i] {
      if i != |x| {
        assert spaced[i] == plussed[i];
      }
    }
  }

  /** Whitespace around the reference is stripped before the replacement, so it never becomes '+'. */
  lemma UrlIgnoresSurroundingSpace(translation: string, a: string, reference: string, b: string)
    requires AllSpace(a) && AllSpace(b)
    ensures VerseUrl(translation, a + reference + b) == VerseUrl(translation, reference)
  {
    StripIgnoresSurroundingSpace(a, reference, b);
  }
}
