/**
  The Python string operations the agent relies on, restricted to ASCII:
  `str.strip()`, `str.lower()`, the substring test `t in s`,
  `str.startswith`, decimal rendering of a status code and `int()` on a string.
 */
module Text {
  import opened Wrappers

  /** `c.isspace()` for an ASCII character: space, \t \n \v \f \r and the separators 0x1C-0x1F. */
  predicate IsSpace(c: char) {
    c == ' ' || 9 <= c as int <= 13 || 28 <= c as int <= 31
  }

  predicate AllSpace(s: string) {
    forall i :: 0 <= i < |s| ==> IsSpace(s[i])
  }

  /** The number of whitespace characters at the start of `s`. */
  function LeadingSpaces(s: string): (n: nat)
    ensures n <= |s| && forall i :: 0 <= i < n ==> IsSpace(s[i])
    ensures n < |s| ==> !IsSpace(s[n])
  {
    if |s| == 0 || !IsSpace(s[0]) then 0 else 1 + LeadingSpaces(s[1..])
  }

  /** The number of whitespace characters at the end of `s`. */
  function TrailingSpaces(s: string): (n: nat)
    ensures n <= |s| && forall i :: |s| - n <= i < |s| ==> IsSpace(s[i])
    ensures n < |s| ==> !IsSpace(s[|s| - n - 1])
  {
    if |s| == 0 || !IsSpace(s[|s| - 1]) then 0 else 1 + TrailingSpaces(s[..|s| - 1])
  }

  /**
    `s.strip()`: `s` with its leading and trailing whitespace removed. The result is
    the slice of `s` that starts after the leading whitespace, and only whitespace
    lies outside it.
   */
  function Strip(s: string): (r: string)
    ensures LeadingSpaces(s) + |r| <= |s|
    ensures r == s[LeadingSpaces(s)..LeadingSpaces(s) + |r|]
    ensures forall k :: LeadingSpaces(s) + |r| <= k < |s| ==> IsSpace(s[k])
    ensures r != [] ==> !IsSpace(r[0]) && !IsSpace(r[|r| - 1])
  {
    var t := s[LeadingSpaces(s)..];
    var n := TrailingSpaces(t);
    assert s[LeadingSpaces(s) + (|t| - n)..] == t[|t| - n..];
    t[..|t| - n]
  }

  /** Stripping `a + r + b` gives back `r` whenever `a` and `b` are whitespace and `r` is already stripped. */
  lemma StripExact(a: string, r: string, b: string)
    requires AllSpace(a) && AllSpace(b)
    requires r != [] ==> !IsSpace(r[0]) && !IsSpace(r[|r| - 1])
    ensures Strip(a + r + b) == r
  {
    var s := a + r + b;
    var i := LeadingSpaces(s);
    var core := Strip(s);
    assert forall k :: 0 <= k < |a| ==> s[k] == a[k];
    assert forall k :: |a| + |r| <= k < |s| ==> s[k] == b[k - |a| - |r|];
    if r == [] {
      assert i == |s|;
    } else {
      assert s[|a|] == r[0] && s[|a| + |r| - 1] == r[|r| - 1];
      assert i == |a|;
      assert core != [] ==> core[|core| - 1] == s[i + |core| - 1];
      assert |core| == |r|;
      assert core == s[|a|..|a| + |r|] == r;
    }
  }

  /** A string that neither starts nor ends with whitespace is its own `strip()`. */
  lemma StripStripped(s: string)
    requires s != [] ==> !IsSpace(s[0]) && !IsSpace(s[|s| - 1])
    ensures Strip(s) == s
  {
    StripExact([], s, []);
    assert [] + s + [] == s;
  }

  /** Whitespace around `s` does not change `s.strip()`. */
  lemma StripIgnoresSurroundingSpace(a: string, s: string, b: string)
    requires AllSpace(a) && AllSpace(b)
    ensures Strip(a + s + b) == Strip(s)
  {
    var pre, core, post := StripSplit(s);
    var left, right := a + pre, post + b;
    Regroup(a, pre, core, post, b);
    AllSpaceConcat(a, pre);
    AllSpaceConcat(post, b);
    StripExact(left, core, right);
  }

  /** `s` is its stripped part with whitespace on either side. */
  lemma StripSplit(s: string) returns (pre: string, core: string, post: string)
    ensures s == pre + core + post && core == Strip(s)
    ensures AllSpace(pre) && AllSpace(post)
  {
    var i := LeadingSpaces(s);
    core := Strip(s);
    pre, post := s[..i], s[i + |core|..];
    assert s == pre + core + post;
  }

  lemma AllSpaceConcat(a: string, b: string)
    requires AllSpace(a) && AllSpace(b)
    ensures AllSpace(a + b)
  {
    forall k | 0 <= k < |a + b| ensures IsSpace((a + b)[k]) {
      if k < |a| { assert (a + b)[k] == a[k]; } else { assert (a + b)[k] == b[k - |a|]; }
    }
  }

  /** `c.lower()` for an ASCII character; any other character is left as it is. */
  function LowerChar(c: char): char {
    if 'A' <= c <= 'Z' then (c as int + 32) as char else c
  }

  /** `s.lower()`, character by character. */
  function Lower(s: string): (r: string)
    ensures |r| == |s|
    ensures forall i :: 0 <= i < |s| ==> r[i] == LowerChar(s[i])
  {
    seq(|s|, i requires 0 <= i < |s| => LowerChar(s[i]))
  }

  lemma LowerConcat(a: string, b: string)
    ensures Lower(a + b) == Lower(a) + Lower(b)
  {
  }

  /** `t` occurs in `s` at position `k`. */
  predicate OccursAt(s: string, t: string, k: int) {
    0 <= k && k + |t| <= |s| && s[k..k + |t|] == t
  }

  /** Python's substring test `t in s`, scanning `s` from the left. */
  function Contains(s: string, t: string): (r: bool)
    ensures r <==> exists k :: OccursAt(s, t, k)
    decreases |s|
  {
    if |t| > |s| then false
    else if s[..|t|] == t then (assert OccursAt(s, t, 0); true)
    else (ContainsShift(s, t); Contains(s[1..], t))
  }

  lemma ContainsShift(s: string, t: string)
    requires |s| > 0
    requires !OccursAt(s, t, 0)
    ensures (exists k :: OccursAt(s, t, k)) <==> (exists k :: OccursAt(s[1..], t, k))
  {
    if k :| OccursAt(s, t, k) {
      assert k > 0;
      assert s[1..][k - 1..k - 1 + |t|] == s[k..k + |t|];
      assert OccursAt(s[1..], t, k - 1);
    }
    if k :| OccursAt(s[1..], t, k) {
      assert s[k + 1..k + 1 + |t|] == s[1..][k..k + |t|];
      assert OccursAt(s, t, k + 1);
    }
  }

  /** A string that lacks one of the characters of `t` cannot contain `t`. */
  lemma MissingCharNotContained(s: string, t: string, c: char)
    requires c in t && c !in s
    ensures !Contains(s, t)
  {
    var j :| 0 <= j < |t| && t[j] == c;
    forall k ensures !OccursAt(s, t, k) {
      if 0 <= k && k + |t| <= |s| {
        assert s[k..k + |t|][j] == s[k + j];
      }
    }
  }

  /** An occurrence inside `s` is still an occurrence after text is added on either side. */
  lemma ContainsInContext(a: string, s: string, b: string, t: string)
    requires Contains(s, t)
    ensures Contains(a + s + b, t)
  {
    var k :| OccursAt(s, t, k);
    var w := a + s + b;
    assert w[|a| + k..|a| + k + |t|] == s[k..k + |t|];
    assert OccursAt(w, t, |a| + k);
  }

  /** `s.startswith(p)`. */
  predicate StartsWith(s: string, p: string) {
    |p| <= |s| && s[..|p|] == p
  }

  lemma StartsWithConcat(a: string, b: string, c: string)
    ensures StartsWith(a + b + c, a) && StartsWith(a + b + c, a + b)
  {
    assert (a + b + c)[..|a|] == a;
    assert (a + b + c)[..|a + b|] == a + b;
  }

  lemma ContainsMiddle(a: string, m: string, b: string)
    ensures Contains(a + m + b, m)
  {
    assert (a + m + b)[|a|..|a| + |m|] == m;
    assert OccursAt(a + m + b, m, |a|);
  }

  function DigitChar(d: nat): char
    requires d < 10
  {
    "0123456789"[d]
  }

  predicate IsDigit(c: char) {
    '0' <= c <= '9'
  }

  /** `str(n)` for a natural number: its decimal digits, most significant first. */
  function NatToString(n: nat): (r: string)
    ensures |r| > 0 && forall i :: 0 <= i < |r| ==> IsDigit(r[i])
  {
    if n < 10 then [DigitChar(n)] else NatToString(n / 10) + [DigitChar(n % 10)]
  }

  /** The value of a non-empty string of decimal digits. */
  function DigitsValue(s: string): nat
    requires forall i :: 0 <= i < |s| ==> IsDigit(s[i])
  {
    if s == [] then 0
    else
      assert IsDigit(s[|s| - 1]);
      DigitsValue(s[..|s| - 1]) * 10 + (s[|s| - 1] as int - '0' as int)
  }

  /** The value of `d` when it is a non-empty run of decimal digits. */
  function ParseDigits(d: string): Option<nat> {
    if d != [] && forall i :: 0 <= i < |d| ==> IsDigit(d[i]) then Some(DigitsValue(d)) else None
  }

  /**
    `int(s)` for an ASCII string: surrounding whitespace is ignored, then one optional
    sign and one or more decimal digits. `None` stands for the ValueError Python raises.
   */
  function ParseInt(s: string): Option<int> {
    var t := Strip(s);
    if |t| > 0 && (t[0] == '+' || t[0] == '-') then
      match ParseDigits(t[1..])
      case None => None
      case Some(v) => Some(if t[0] == '-' then -(v as int) else v as int)
    else
      match ParseDigits(t)
      case None => None
      case Some(v) => Some(v)
  }

  lemma {:induction false} DigitsOfNatToString(n: nat)
    ensures DigitsValue(NatToString(n)) == n
  {
    if n >= 10 {
      DigitsOfNatToString(n / 10);
      var s := NatToString(n / 10) + [DigitChar(n % 10)];
      assert s[..|s| - 1] == NatToString(n / 10);
    }
  }

  /** Reading back the decimal rendering of a natural number gives the number: `int(str(n)) == n`. */
  lemma ParseIntOfNatToString(n: nat)
    ensures ParseInt(NatToString(n)) == Some(n)
  {
    var s := NatToString(n);
    assert !IsSpace(s[0]) && !IsSpace(s[|s| - 1]);
    StripStripped(s);
    assert !(s[0] == '+' || s[0] == '-');
    DigitsOfNatToString(n);
    assert ParseDigits(s) == Some(n);
  }

  // ---------------------------------------------------------------- solver helpers
  // Sequence regroupings the proofs above use; they state nothing about the text functions.

  lemma Regroup<T>(a: seq<T>, pre: seq<T>, core: seq<T>, post: seq<T>, b: seq<T>)
    ensures a + (pre + core + post) + b == (a + pre) + core + (post + b)
  {
  }
}
