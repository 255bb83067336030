/**
 * Character classes and string functions of Python's `str` and `re` that the
 * core relies on: `isspace`/`\s`, `\w`, `\d`, `lower`, `strip`, `split`,
 * `join`, `in` on strings and `str(int)`.
 */
module Text {

  /**
   * Python's `str.isspace`, which is also what `\s` and `strip()` use: tab to
   * carriage return, the four separators U+001C to U+001F, the space, NEL,
   * no-break space and the Unicode space separators.
   */
  predicate IsSpace(c: char) {
    || ('\t' <= c <= '\r') || ('\U{001C}' <= c <= ' ') || c == '\U{0085}' || c == '\U{00A0}' || c == '\U{1680}'
    || ('\U{2000}' <= c <= '\U{200A}') || ('\U{2028}' <= c <= '\U{2029}')
    || c == '\U{202F}' || c == '\U{205F}' || c == '\U{3000}'
  }

  predicate IsDigit(c: char) {
    '0' <= c <= '9'
  }

  predicate IsLowerLetter(c: char) {
    'a' <= c <= 'z'
  }

  /** `\w` restricted to ASCII: letters, digits and the underscore. */
  predicate IsWordChar(c: char) {
    ('a' <= c <= 'z') || ('A' <= c <= 'Z') || IsDigit(c) || c == '_'
  }

  /** `str.lower` on one character (ASCII letters only). */
  function LowerChar(c: char): (r: char)
    ensures 'A' <= c <= 'Z' ==> IsLowerLetter(r)
    ensures !('A' <= c <= 'Z') ==> r == c
    ensures IsDigit(r) == IsDigit(c) && IsWordChar(r) == IsWordChar(c)
  {
    if 'A' <= c <= 'Z' then (c as int - 'A' as int + 'a' as int) as char else c
  }

  /** Lower-casing neither makes nor unmakes whitespace. */
  lemma LowerCharKeepsSpace(c: char)
    ensures IsSpace(LowerChar(c)) == IsSpace(c)
  {
  }

  function Lower(s: string): (r: string)
    ensures |r| == |s|
    ensures forall i :: 0 <= i < |s| ==> r[i] == LowerChar(s[i])
  {
    seq(|s|, i requires 0 <= i < |s| => LowerChar(s[i]))
  }

  lemma LowerIdempotent(s: string)
    ensures Lower(Lower(s)) == Lower(s)
  {
  }

  predicate AllSpace(s: string) {
    forall i :: 0 <= i < |s| ==> IsSpace(s[i])
  }

  /** `str.lstrip()`: the suffix left after dropping leading whitespace. */
  function StripStart(s: string): (r: string)
    ensures |r| <= |s| && r == s[|s| - |r|..]
    ensures AllSpace(s[..|s| - |r|])
    ensures r == [] || !IsSpace(r[0])
  {
    if |s| > 0 && IsSpace(s[0]) then
      var r := StripStart(s[1..]);
      assert s[1..][..|s| - 1 - |r|] == s[1..|s| - |r|];
      r
    else s
  }

  /** `str.rstrip()`: the prefix left after dropping trailing whitespace. */
  function StripEnd(s: string): (r: string)
    ensures |r| <= |s| && r == s[..|r|]
    ensures AllSpace(s[|r|..])
    ensures r == [] || !IsSpace(r[|r| - 1])
  {
    if |s| > 0 && IsSpace(s[|s| - 1]) then
      var r := StripEnd(s[..|s| - 1]);
      assert s[..|s| - 1][|r|..] + [s[|s| - 1]] == s[|r|..];
      r
    else s
  }

  /** `str.strip()`: whitespace cut away on both sides. */
  function Strip(s: string): (r: string)
    ensures |r| <= |s|
    ensures r == [] || (!IsSpace(r[0]) && !IsSpace(r[|r| - 1]))
  {
    var t := StripStart(s);
    var r := StripEnd(t);
    assert r == [] || r[0] == t[0];
    r
  }

  /**
   * The stripped string is the slice that starts after the leading
   * whitespace, and only whitespace follows it.
   */
  lemma StripIsSlice(s: string)
    ensures var i := |s| - |StripStart(s)|; var r := Strip(s);
      i + |r| <= |s| && r == s[i..i + |r|] && AllSpace(s[..i]) && AllSpace(s[i + |r|..])
  {
    var t := StripStart(s);
    var r := StripEnd(t);
    var i := |s| - |t|;
    assert s[i + |r|..] == t[|r|..];
  }

  /** Stripping adds no character: one absent from the input is absent from the result. */
  lemma StripKeepsOut(s: string, c: char)
    requires c !in s
    ensures c !in Strip(s)
  {
    var t := StripStart(s);
    SliceKeepsOut(s, |s| - |t|, |s|, c);
    SliceKeepsOut(t, 0, |StripEnd(t)|, c);
  }

  lemma SliceKeepsOut(s: string, a: nat, b: nat, c: char)
    requires a <= b <= |s| && c !in s
    ensures c !in s[a..b]
  {
  }

  lemma StripOfUnpadded(s: string)
    requires s == [] || (!IsSpace(s[0]) && !IsSpace(s[|s| - 1]))
    ensures Strip(s) == s
  {
  }

  /** Number of occurrences of `c` in `s`. */
  function CountChar(s: string, c: char): (n: nat)
    ensures n <= |s|
  {
    if s == [] then 0 else (if s[0] == c then 1 else 0) + CountChar(s[1..], c)
  }

  /** The inverse of `Split`: the parts glued back together with the separator. */
  function JoinWith(parts: seq<string>, sep: char): string
    requires |parts| > 0
  {
    if |parts| == 1 then parts[0] else parts[0] + [sep] + JoinWith(parts[1..], sep)
  }

  /** Python's `s.split(sep)` for a one-character separator. */
  function Split(s: string, sep: char): (r: seq<string>)
    ensures |r| == CountChar(s, sep) + 1
    ensures forall i :: 0 <= i < |r| ==> sep !in r[i]
    ensures JoinWith(r, sep) == s
  {
    if s == [] then [""]
    else
      var rest := Split(s[1..], sep);
      if s[0] == sep then [""] + rest
      else
        var r := [[s[0]] + rest[0]] + rest[1..];
        assert r[1..] == rest[1..];
        r
  }

  lemma {:induction false} SplitJoinWith(parts: seq<string>, sep: char)
    requires |parts| > 0
    requires forall i :: 0 <= i < |parts| ==> sep !in parts[i]
    ensures Split(JoinWith(parts, sep), sep) == parts
    decreases |parts|, |parts[0]|
  {
    if |parts| == 1 {
      SplitNoSeparator(parts[0], sep);
    } else if parts[0] == [] {
      var tail := JoinWith(parts[1..], sep);
      assert JoinWith(parts, sep) == [sep] + tail;
      assert ([sep] + tail)[1..] == tail;
      SplitJoinWith(parts[1..], sep);
      assert parts == [""] + parts[1..];
    } else {
      var s := JoinWith(parts, sep);
      var shorter := [parts[0][1..]] + parts[1..];
      assert shorter[1..] == parts[1..];
      assert JoinWith(shorter, sep) == s[1..];
      SplitJoinWith(shorter, sep);
      assert parts[0] == [parts[0][0]] + parts[0][1..];
    }
  }

  lemma {:induction false} SplitNoSeparator(s: string, sep: char)
    requires sep !in s
    ensures Split(s, sep) == [s]
  {
    if s != [] {
      SplitNoSeparator(s[1..], sep);
    }
  }

  /** Python's `delim.join(parts)`. */
  function Join(parts: seq<string>, delim: string): string {
    if |parts| == 0 then ""
    else if |parts| == 1 then parts[0]
    else parts[0] + delim + Join(parts[1..], delim)
  }

  /** Two parts are joined by one delimiter. */
  lemma JoinTwo(a: string, b: string, delim: string)
    ensures Join([a, b], delim) == a + delim + b
  {
    assert [a, b][1..] == [b];
  }

  function DigitChar(d: nat): (c: char)
    requires d < 10
    ensures IsDigit(c)
  {
    ('0' as int + d) as char
  }

  /** Python's `str(n)` for a non-negative integer: decimal, no leading zeros. */
  function NatToString(n: nat): (r: string)
    ensures |r| > 0
    ensures forall i :: 0 <= i < |r| ==> IsDigit(r[i])
    ensures |r| > 1 ==> r[0] != '0'
  {
    if n < 10 then [DigitChar(n)] else NatToString(n / 10) + [DigitChar(n % 10)]
  }

  /** Value of a run of decimal digits. */
  function DigitsValue(s: string): nat
    requires forall i :: 0 <= i < |s| ==> IsDigit(s[i])
  {
    if s == [] then 0
    else
      var d := s[|s| - 1];
      assert IsDigit(d);
      10 * DigitsValue(s[..|s| - 1]) + (d as int - '0' as int)
  }

  lemma {:induction false} NatToStringRoundTrip(n: nat)
    ensures DigitsValue(NatToString(n)) == n
  {
    if n >= 10 {
      var r := NatToString(n);
      assert r[..|r| - 1] == NatToString(n / 10);
      NatToStringRoundTrip(n / 10);
    }
  }

  /** `s.startswith(pat)` at position `p`. */
  predicate At(s: string, p: nat, pat: string) {
    p + |pat| <= |s| && s[p..p + |pat|] == pat
  }

  /** `pat in s` for strings: `pat` occurs as a contiguous slice of `s`. */
  function IsSubstring(pat: string, s: string): (b: bool)
    ensures b <==> exists i: nat :: At(s, i, pat)
    decreases |s|
  {
    if |pat| > |s| then false
    else if At(s, 0, pat) then true
    else
      var b := IsSubstring(pat, s[1..]);
      assert b ==> exists i: nat :: At(s, i, pat) by {
        if b {
          var j: nat :| At(s[1..], j, pat);
          assert s[j + 1..j + 1 + |pat|] == s[1..][j..j + |pat|];
          assert At(s, j + 1, pat);
        }
      }
      assert (exists i: nat :: At(s, i, pat)) ==> b by {
        if exists i: nat :: At(s, i, pat) {
          var i: nat :| At(s, i, pat);
          assert i != 0;
          assert s[1..][i - 1..i - 1 + |pat|] == s[i..i + |pat|];
          assert At(s[1..], i - 1, pat);
        }
      }
      b
  }

  /** Like `At`, but comparing `s` lowered (the `re.IGNORECASE` flag); `pat` is lower-case. */
  predicate AtIgnoreCase(s: string, p: nat, pat: string) {
    p + |pat| <= |s| && Lower(s[p..p + |pat|]) == pat
  }

  /** `s` and `t` differ at most in the case of their letters: `s.lower() == t.lower()`. */
  predicate SameIgnoringCase(s: string, t: string) {
    |s| == |t| && forall i :: 0 <= i < |s| ==> LowerChar(s[i]) == LowerChar(t[i])
  }

  lemma LowerSameIgnoringCase(s: string)
    ensures SameIgnoringCase(Lower(s), s)
  {
  }

  /** Two texts that differ only in case have the same lower-cased form. */
  lemma SameIgnoringCaseLower(s: string, t: string)
    requires SameIgnoringCase(s, t)
    ensures Lower(s) == Lower(t)
  {
  }
}
