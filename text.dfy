/** Character classes and string helpers standing in for the parts of Python's
    `str` type and of its `re` character classes that the outline engine uses.
    Python's Unicode tables are approximated; README.md says how. */
module Text {

  type String = seq<char>

  datatype Option<T> = None | Some(value: T)

  function Max(a: int, b: int): int { if a < b then b else a }
  function Min(a: int, b: int): int { if a < b then a else b }

  // ---------------------------------------------------------------------------
  // Character classes
  // ---------------------------------------------------------------------------

  /** `str.isspace()`: the characters `\s`, `str.split()` and `str.strip()` treat as whitespace. */
  predicate IsSpace(c: char) {
    || c == ' '
    || ('\t' <= c <= '\r')
    || ('\U{1C}' <= c <= '\U{1F}')
    || c == '\U{85}' || c == '\U{A0}' || c == '\U{1680}'
    || ('\U{2000}' <= c <= '\U{200A}')
    || c == '\U{2028}' || c == '\U{2029}' || c == '\U{202F}' || c == '\U{205F}'
    || c == '\U{3000}'
  }

  /** `\d`: ASCII, Devanagari and fullwidth decimal digits. */
  predicate IsDigit(c: char) {
    || ('0' <= c <= '9')
    || ('\U{966}' <= c <= '\U{96F}')
    || ('\U{FF10}' <= c <= '\U{FF19}')
  }

  /** Devanagari digits, the class `[१२३४५६७८९०]`. */
  predicate IsDevanagariDigit(c: char) {
    '\U{966}' <= c <= '\U{96F}'
  }

  /** Upper-case cased letters: ASCII, Latin-1 and basic Cyrillic. */
  predicate IsUpper(c: char) {
    || ('A' <= c <= 'Z')
    || ('\U{C0}' <= c <= '\U{DE}' && c != '\U{D7}')
    || ('\U{400}' <= c <= '\U{42F}')
  }

  /** Lower-case cased letters: ASCII, Latin-1 (with the ordinal indicators
      and the micro sign) and basic Cyrillic. */
  predicate IsLower(c: char) {
    || ('a' <= c <= 'z')
    || c == '\U{AA}' || c == '\U{B5}' || c == '\U{BA}'
    || ('\U{DF}' <= c <= '\U{FF}' && c != '\U{F7}')
    || ('\U{430}' <= c <= '\U{45F}')
  }

  /** `str.lower()` on one character. */
  function ToLower(c: char): (r: char)
    ensures IsUpper(c) ==> IsLower(r)
    ensures !IsUpper(c) ==> r == c
  {
    if 'A' <= c <= 'Z' || ('\U{C0}' <= c <= '\U{DE}' && c != '\U{D7}') || ('\U{410}' <= c <= '\U{42F}') then
      (c as int + 32) as char
    else if '\U{400}' <= c <= '\U{40F}' then
      (c as int + 80) as char
    else
      c
  }

  /** `str.isalpha()` on one character: the cased letters above and the letters of
      the CJK, kana, Hangul, Devanagari and Cyrillic blocks. */
  predicate IsAlpha(c: char) {
    || IsUpper(c) || IsLower(c)
    || ('\U{460}' <= c <= '\U{481}') || ('\U{48A}' <= c <= '\U{4FF}')
    || ('\U{904}' <= c <= '\U{939}') || c == '\U{93D}' || c == '\U{950}'
    || ('\U{958}' <= c <= '\U{961}') || ('\U{971}' <= c <= '\U{97F}')
    || ('\U{3041}' <= c <= '\U{3096}') || ('\U{309D}' <= c <= '\U{309F}')
    || ('\U{30A1}' <= c <= '\U{30FA}') || ('\U{30FC}' <= c <= '\U{30FF}')
    || ('\U{4E00}' <= c <= '\U{9FFF}')
    || ('\U{AC00}' <= c <= '\U{D7A3}')
  }

  /** Circled digits one to twenty, which Python counts as numeric. */
  predicate IsCircledNumber(c: char) {
    '\U{2460}' <= c <= '\U{2473}'
  }

  /** `\w`: letters, digits, numeric characters and the underscore. */
  predicate IsWordChar(c: char) {
    IsAlpha(c) || IsDigit(c) || IsCircledNumber(c) || c == '_'
  }

  // ---------------------------------------------------------------------------
  // Strings
  // ---------------------------------------------------------------------------

  /** `str.lower()`. */
  function Lower(s: String): (r: String)
    ensures |r| == |s|
    ensures forall i :: 0 <= i < |s| ==> r[i] == ToLower(s[i])
  {
    seq(|s|, i requires 0 <= i < |s| => ToLower(s[i]))
  }

  /** Length of the longest run of characters satisfying `p` that starts at `i`. */
  function RunFrom(s: String, i: nat, p: char -> bool): (n: nat)
    requires i <= |s|
    ensures i + n <= |s|
    decreases |s| - i
  {
    if i < |s| && p(s[i]) then 1 + RunFrom(s, i + 1, p) else 0
  }

  /** The run is made of characters satisfying `p` and cannot be extended. */
  lemma {:induction false} RunFromMaximal(s: String, i: nat, p: char -> bool)
    requires i <= |s|
    ensures forall k :: i <= k < i + RunFrom(s, i, p) ==> p(s[k])
    ensures i + RunFrom(s, i, p) == |s| || !p(s[i + RunFrom(s, i, p)])
    decreases |s| - i
  {
    if i < |s| && p(s[i]) {
      RunFromMaximal(s, i + 1, p);
    }
  }

  /** A run of exactly `n` characters satisfying `p`, followed by the end or by
      one that does not, has length `n`. */
  lemma {:induction false} RunFromExact(s: String, i: nat, n: nat, p: char -> bool)
    requires i + n <= |s|
    requires forall k :: i <= k < i + n ==> p(s[k])
    requires i + n == |s| || !p(s[i + n])
    ensures RunFrom(s, i, p) == n
    decreases n
  {
    if n > 0 {
      RunFromExact(s, i + 1, n - 1, p);
    }
  }

  /** Length of the longest suffix of `s` whose characters all satisfy `p`. */
  function TrailingRun(s: String, p: char -> bool): (n: nat)
    ensures n <= |s|
  {
    if |s| > 0 && p(s[|s| - 1]) then 1 + TrailingRun(s[..|s| - 1], p) else 0
  }

  /** The suffix is made of characters satisfying `p` and cannot be extended. */
  lemma {:induction false} TrailingRunMaximal(s: String, p: char -> bool)
    ensures forall k :: |s| - TrailingRun(s, p) <= k < |s| ==> p(s[k])
    ensures TrailingRun(s, p) == |s| || !p(s[|s| - TrailingRun(s, p) - 1])
  {
    if |s| > 0 && p(s[|s| - 1]) {
      TrailingRunMaximal(s[..|s| - 1], p);
    }
  }

  /** `str.strip()`. */
  function Strip(s: String): (r: String)
    ensures |r| <= |s|
  {
    var a := RunFrom(s, 0, IsSpace);
    var t := s[a..];
    t[..|t| - TrailingRun(t, IsSpace)]
  }

  /** The stripped string neither starts nor ends with whitespace. */
  lemma StripTrimmed(s: String)
    ensures var r := Strip(s); r == [] || (!IsSpace(r[0]) && !IsSpace(r[|r| - 1]))
  {
    var a := RunFrom(s, 0, IsSpace);
    RunFromMaximal(s, 0, IsSpace);
    var t := s[a..];
    TrailingRunMaximal(t, IsSpace);
  }

  /** A string that neither starts nor ends with whitespace is its own strip. */
  lemma StripUnchanged(s: String)
    requires s == [] || (!IsSpace(s[0]) && !IsSpace(s[|s| - 1]))
    ensures Strip(s) == s
  {
    assert RunFrom(s, 0, IsSpace) == 0;
    assert s[0..] == s;
  }

  /** Stripping is idempotent. */
  lemma StripIdempotent(s: String)
    ensures Strip(Strip(s)) == Strip(s)
  {
    StripTrimmed(s);
    StripUnchanged(Strip(s));
  }

  /** Lower-casing keeps whitespace where it is, so it commutes with stripping. */
  lemma StripLower(s: String)
    ensures Strip(Lower(s)) == Lower(Strip(s))
  {
    var a := RunFrom(s, 0, IsSpace);
    RunFromLower(s, 0, IsSpace);
    var t := s[a..];
    assert Lower(s)[a..] == Lower(t);
    TrailingRunLower(t);
    var r := TrailingRun(t, IsSpace);
    assert Lower(t)[..|t| - r] == Lower(t[..|t| - r]);
  }

  /** A run of a class that lower-casing maps onto itself is the same in the lowered string. */
  lemma {:induction false} RunFromLower(s: String, i: nat, p: char -> bool)
    requires i <= |s|
    requires forall c :: p(ToLower(c)) == p(c)
    ensures RunFrom(Lower(s), i, p) == RunFrom(s, i, p)
    decreases |s| - i
  {
    if i < |s| {
      assert p(Lower(s)[i]) == p(s[i]);
      RunFromLower(s, i + 1, p);
    }
  }

  lemma {:induction false} TrailingRunLower(s: String)
    ensures TrailingRun(Lower(s), IsSpace) == TrailingRun(s, IsSpace)
  {
    if |s| > 0 {
      assert Lower(s)[..|s| - 1] == Lower(s[..|s| - 1]);
      TrailingRunLower(s[..|s| - 1]);
    }
  }

  /** `i` starts a maximal run of non-whitespace characters. */
  predicate IsWordStart(s: String, i: nat)
    requires i < |s|
  {
    !IsSpace(s[i]) && (i == 0 || IsSpace(s[i - 1]))
  }

  /** `len(s.split())`: the number of maximal runs of non-whitespace characters. */
  function WordCount(s: String): (n: nat)
    ensures n <= |s|
  {
    if s == [] then 0
    else WordCount(s[..|s| - 1]) + (if IsWordStart(s, |s| - 1) then 1 else 0)
  }

  /** A non-empty string without whitespace is one word. */
  lemma {:induction false} OneWord(s: String)
    requires |s| > 0 && forall i :: 0 <= i < |s| ==> !IsSpace(s[i])
    ensures WordCount(s) == 1
  {
    var p := s[..|s| - 1];
    if p != [] {
      assert forall i :: 0 <= i < |p| ==> p[i] == s[i];
      OneWord(p);
    }
  }

  predicate StartsWith(s: String, prefix: String) {
    |prefix| <= |s| && s[..|prefix|] == prefix
  }

  predicate EndsWith(s: String, suffix: String) {
    |suffix| <= |s| && s[|s| - |suffix|..] == suffix
  }

  /** `sub in s`. */
  predicate Contains(s: String, sub: String)
    decreases |s|
  {
    StartsWith(s, sub) || (|s| > 0 && Contains(s[1..], sub))
  }

  /** `sep.join(lines)`. */
  function Join(lines: seq<String>, sep: String): (r: String)
  {
    if |lines| == 0 then []
    else if |lines| == 1 then lines[0]
    else Join(lines[..|lines| - 1], sep) + sep + lines[|lines| - 1]
  }

  /** Joining one more piece appends the separator and the piece. */
  lemma JoinSnoc(lines: seq<String>, line: String, sep: String)
    requires |lines| >= 1
    ensures Join(lines + [line], sep) == Join(lines, sep) + sep + line
  {
    assert (lines + [line])[..|lines|] == lines;
  }

  /** Extending the last piece extends the joined string. */
  lemma JoinExtendLast(lines: seq<String>, c: char, sep: String)
    requires |lines| >= 1
    ensures Join(lines[..|lines| - 1] + [lines[|lines| - 1] + [c]], sep) == Join(lines, sep) + [c]
  {
    var init, last := lines[..|lines| - 1], lines[|lines| - 1];
    assert lines == init + [last];
    if |init| >= 1 {
      JoinSnoc(init, last + [c], sep);
      JoinSnoc(init, last, sep);
      calc {
        Join(init + [last + [c]], sep);
        Join(init, sep) + sep + (last + [c]);
        (Join(init, sep) + sep + last) + [c];
        Join(init + [last], sep) + [c];
      }
    } else {
      assert init + [last + [c]] == [last + [c]];
    }
  }
}
