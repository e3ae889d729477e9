/** The handful of JavaScript string operations the declaration generator
    and the uniform flattener rely on, written over `seq<char>`. */
module Text {

  datatype Option<T> = None | Some(value: T)

  /** `parts.join(sep)`: the parts in order with `sep` between neighbours. */
  function Join(parts: seq<string>, sep: string): (r: string)
    ensures |parts| == 0 ==> r == ""
    ensures |parts| == 1 ==> r == parts[0]
  {
    if |parts| == 0 then ""
    else if |parts| == 1 then parts[0]
    else parts[0] + sep + Join(parts[1..], sep)
  }

  lemma JoinTwo(a: string, b: string, sep: string)
    ensures Join([a, b], sep) == a + sep + b
  {
    assert [a, b][1..] == [b];
  }

  /** Decimal digit of a value below ten. */
  function DigitChar(d: nat): char
    requires d < 10
  {
    "0123456789"[d]
  }

  function DigitValue(c: char): nat
  {
    if '0' <= c <= '9' then (c - '0') as nat else 0
  }

  predicate IsDigit(c: char) { '0' <= c <= '9' }

  /** `${n}` for a non-negative integer: its shortest decimal spelling. */
  function NatToString(n: nat): (s: string)
    ensures |s| >= 1
    ensures forall i :: 0 <= i < |s| ==> IsDigit(s[i])
    ensures |s| > 1 ==> s[0] != '0'
  {
    if n < 10 then [DigitChar(n)] else NatToString(n / 10) + [DigitChar(n % 10)]
  }

  /** Value of a string of decimal digits, the reference reading of `NatToString`. */
  function DigitsValue(s: string): nat
  {
    if |s| == 0 then 0 else 10 * DigitsValue(s[..|s| - 1]) + DigitValue(s[|s| - 1])
  }

  lemma {:induction false} NatToStringRoundTrip(n: nat)
    ensures DigitsValue(NatToString(n)) == n
  {
    var s := NatToString(n);
    if n < 10 {
      assert s[..0] == [];
    } else {
      assert s[..|s| - 1] == NatToString(n / 10);
      NatToStringRoundTrip(n / 10);
    }
  }

  /** Distinct numbers have distinct spellings, so `name[i]` paths never collide. */
  lemma NatToStringInjective(m: nat, n: nat)
    requires NatToString(m) == NatToString(n)
    ensures m == n
  {
    NatToStringRoundTrip(m);
    NatToStringRoundTrip(n);
  }

  /** The characters the `\s` class of a JavaScript regular expression matches. */
  predicate IsJsWhitespace(c: char)
  {
    c == ' ' || c == '\t' || c == '\n' || c == '\r' || c == '\U{000B}' || c == '\U{000C}'
    || c == '\U{00A0}' || c == '\U{1680}' || ('\U{2000}' <= c <= '\U{200A}')
    || c == '\U{2028}' || c == '\U{2029}' || c == '\U{202F}' || c == '\U{205F}'
    || c == '\U{3000}' || c == '\U{FEFF}'
  }

  /** Length of the longest run of whitespace at the start of `s`. */
  function LeadingSpaces(s: string): (n: nat)
    ensures n <= |s|
    ensures forall i :: 0 <= i < n ==> IsJsWhitespace(s[i])
    ensures n < |s| ==> !IsJsWhitespace(s[n])
  {
    if |s| > 0 && IsJsWhitespace(s[0]) then 1 + LeadingSpaces(s[1..]) else 0
  }

  const UniformKeyword: string := "uniform"

  /** `s.replace(/^uniform\s+/, "")`: drops the keyword and every whitespace
      character after it, and only when at least one follows it. */
  function StripUniformKeyword(s: string): (r: string)
    ensures |r| <= |s| && r == s[|s| - |r|..]
    ensures r != s ==> |s| - |r| > |UniformKeyword| && s[..|UniformKeyword|] == UniformKeyword
    ensures forall i :: |UniformKeyword| <= i < |s| - |r| ==> IsJsWhitespace(s[i])
    ensures r != s && |r| > 0 ==> !IsJsWhitespace(r[0])
  {
    if |s| > |UniformKeyword| && s[..|UniformKeyword|] == UniformKeyword && IsJsWhitespace(s[|UniformKeyword|]) then
      var rest := s[|UniformKeyword|..];
      rest[LeadingSpaces(rest)..]
    else s
  }

  lemma StripUniformKeywordOf(rest: string)
    requires |rest| > 0 && !IsJsWhitespace(rest[0])
    ensures StripUniformKeyword(UniformKeyword + " " + rest) == rest
  {
    var s := UniformKeyword + " " + rest;
    assert s[..|UniformKeyword|] == UniformKeyword;
    assert s[|UniformKeyword|..] == " " + rest;
    assert LeadingSpaces(" " + rest) == 1 by {
      assert (" " + rest)[1..] == rest;
    }
  }

  lemma StripUniformKeywordKeeps(s: string)
    requires |s| == 0 || s[0] != 'u'
    ensures StripUniformKeyword(s) == s
  {
    if |s| > |UniformKeyword| {
      assert s[..|UniformKeyword|][0] == s[0];
    }
  }

  /** `pat` occurs in `s` at position `i`. */
  predicate OccursAt(s: string, pat: string, i: nat)
  {
    i + |pat| <= |s| && s[i..i + |pat|] == pat
  }

  /** `s.indexOf(pat)`: the first position at which `pat` occurs, if any. */
  function IndexOf(s: string, pat: string, from: nat := 0): (r: Option<nat>)
    requires from <= |s|
    ensures r.Some? ==> from <= r.value && OccursAt(s, pat, r.value)
    ensures r.Some? ==> forall j :: from <= j < r.value ==> !OccursAt(s, pat, j)
    ensures r.None? ==> forall j :: from <= j <= |s| ==> !OccursAt(s, pat, j)
    decreases |s| - from
  {
    if from + |pat| > |s| then None
    else if s[from..from + |pat|] == pat then Some(from)
    else IndexOf(s, pat, from + 1)
  }

  /** `s.replace(pat, rep)` with a string pattern: only the first occurrence is replaced. */
  function ReplaceFirst(s: string, pat: string, rep: string): string
  {
    match IndexOf(s, pat)
    case None => s
    case Some(i) => s[..i] + rep + s[i + |pat|..]
  }

  /** `c.toUpperCase()` for the ASCII letters; every other character is kept. */
  function ToUpperAscii(c: char): char
  {
    if 'a' <= c <= 'z' then (c - 'a' + 'A') as char else c
  }

  /** `s.charAt(0).toUpperCase() + s.slice(1)`. */
  function UpperFirst(s: string): (r: string)
    ensures |r| == |s| && (|s| > 0 ==> r[1..] == s[1..])
    ensures |s| > 0 && 'a' <= s[0] <= 'z' ==> 'A' <= r[0] <= 'Z' && r[0] as int == s[0] as int - 32
    ensures |s| > 0 && !('a' <= s[0] <= 'z') ==> r[0] == s[0]
  {
    if |s| == 0 then "" else [ToUpperAscii(s[0])] + s[1..]
  }
}
