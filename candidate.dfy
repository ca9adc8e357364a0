/** Heading candidacy: script-dependent length caps, a context cap, then nine
    positive signals of which any one accepts the line
    (adobe/main.py, `is_multilingual_heading_candidate`). */
module HeadingCandidate {
  import opened Text
  import opened ScriptDetector
  import opened ContextAnalyzer
  import opened Catalogs

  /** The scripts whose text is denser: chinese and japanese. */
  predicate IsCjScript(script: Script) {
    script == Chinese || script == Japanese
  }

  function MaxChars(script: Script): nat {
    if IsCjScript(script) then 50 else 120
  }

  function MaxWords(script: Script): nat {
    if IsCjScript(script) then 20 else 15
  }

  // ---------------------------------------------------------------------------
  // String predicates of the signals
  // ---------------------------------------------------------------------------

  /** `str.isupper()`: some cased character, and none of them lower-case. */
  predicate IsAllUpper(s: String) {
    && (exists i :: 0 <= i < |s| && IsUpper(s[i]))
    && (forall i :: 0 <= i < |s| ==> !IsLower(s[i]))
  }

  /** The scan of `str.istitle()` from position `i`: an upper-case letter may not
      follow a cased one, a lower-case letter must, and some letter is cased. */
  function TitleScan(s: String, i: nat, previousIsCased: bool, cased: bool): bool
    requires i <= |s|
    decreases |s| - i
  {
    if i == |s| then cased
    else if IsUpper(s[i]) then !previousIsCased && TitleScan(s, i + 1, true, true)
    else if IsLower(s[i]) then previousIsCased && TitleScan(s, i + 1, true, true)
    else TitleScan(s, i + 1, false, cased)
  }

  /** `str.istitle()`. */
  predicate IsTitleCase(s: String) {
    TitleScan(s, 0, false, false)
  }

  /** The number of upper-case characters of `s`. */
  function UpperCount(s: String): (n: nat)
    ensures n <= |s|
  {
    if s == [] then 0 else UpperCount(s[..|s| - 1]) + (if IsUpper(s[|s| - 1]) then 1 else 0)
  }

  /** At least six tenths of the characters, but not all of them, are upper case (cross-multiplied, counting an empty text as length one). */
  predicate HighUpperRatio(s: String) {
    var n := Max(1, |s|);
    10 * UpperCount(s) >= 6 * n && UpperCount(s) < n
  }

  predicate IsAsciiUpper(c: char) {
    'A' <= c <= 'Z'
  }

  predicate IsAsciiUpperOrSpace(c: char) {
    IsAsciiUpper(c) || IsSpace(c)
  }

  /** `re.match(r'^\d+\s+[A-Z\s]+$', s)`: a number, then whitespace, then only
      upper-case ASCII letters and whitespace to the end (at least two characters). */
  predicate IsStreetAddress(s: String) {
    var d := RunFrom(s, 0, IsDigit);
    && d > 0
    && |s| - d >= 2
    && IsSpace(s[d])
    && forall i :: d <= i < |s| ==> IsAsciiUpperOrSpace(s[i])
  }

  /** `re.match(r'^[A-Z\s]+,\s*[A-Z]{2}', s)`: a place, a comma, a two-letter code. */
  predicate IsPlaceAndCode(s: String) {
    var m := RunFrom(s, 0, IsAsciiUpperOrSpace);
    && m > 0 && m < |s| && s[m] == ','
    && var k := m + 1 + RunFrom(s, m + 1, IsSpace);
       k + 2 <= |s| && IsAsciiUpper(s[k]) && IsAsciiUpper(s[k + 1])
  }

  /** The address exclusion of the all-caps signal (case-sensitive). */
  predicate IsAddress(s: String) {
    IsStreetAddress(s) || IsPlaceAndCode(s)
  }

  /** Some instruction word of some language occurs in the lower-cased line. */
  predicate IsInstruction(s: String) {
    AnyWordTableFrom(0, Lower(s))
  }

  /** `[一二三四五六七八九十]`. */
  predicate IsCjkNumeral(c: char) {
    c == '一' || c == '二' || c == '三' || c == '四' || c == '五' || c == '六' || c == '七' || c == '八' || c == '九' || c == '十'
  }

  /** `[①②③④⑤⑥⑦⑧⑨⑩]`. */
  predicate IsCircledOneToTen(c: char) {
    '\U{2460}' <= c <= '\U{2469}'
  }

  /** `re.search(r'[一二三四五六七八九十]、', s)`. */
  predicate HasNumeralComma(s: String) {
    exists i :: 0 <= i < |s| - 1 && IsCjkNumeral(s[i]) && s[i + 1] == '、'
  }

  /** `re.search(r'[①②③④⑤⑥⑦⑧⑨⑩]', s)`. */
  predicate HasCircledNumber(s: String) {
    exists i :: 0 <= i < |s| && IsCircledOneToTen(s[i])
  }

  /** `[가나다라마바사아자차카타파하]`. */
  predicate IsHangulMarker(c: char) {
    c == '가' || c == '나' || c == '다' || c == '라' || c == '마' || c == '바' || c == '사' || c == '아' || c == '자' || c == '차' || c == '카' || c == '타' || c == '파' || c == '하'
  }

  /** `re.search(r'[가나다라마바사아자차카타파하]\.', s)`. */
  predicate HasKoreanMarker(s: String) {
    exists i :: 0 <= i < |s| - 1 && IsHangulMarker(s[i]) && s[i + 1] == '.'
  }

  /** `re.search(r'[१२३४५६७८९०]|अध्याय|भाग|खंड', s)`. */
  predicate HasDevanagariMarker(s: String) {
    || (exists i :: 0 <= i < |s| && IsDevanagariDigit(s[i]))
    || Contains(s, "अध्याय") || Contains(s, "भाग") || Contains(s, "खंड")
  }

  // ---------------------------------------------------------------------------
  // The decision
  // ---------------------------------------------------------------------------

  /** Signal 3: all caps, two to eight words, no instruction word, not an address. */
  predicate AllCapsSignal(line: String, words: nat) {
    IsAllUpper(line) && 2 <= words <= 8 && !IsInstruction(line) && !IsAddress(line)
  }

  /** Signal 7, for chinese and japanese lines. */
  predicate CjkSignal(line: String) {
    HasNumeralComma(line) || HasCircledNumber(line) || (|line| <= 30 && !EndsWith(line, "。"))
  }

  /** The nine positive signals, in the order the code tries them. */
  predicate PositiveSignal(line: String, words: nat, script: Script) {
    PatternSignal(line, words) || ShapeSignal(line, words, script)
  }

  /** Signals 1 to 3: the pattern lists and the all-caps test. */
  predicate PatternSignal(line: String, words: nat) {
    || AnyHeadingPattern(NumberedSections, Lower(line))
    || AnyHeadingPattern(AppendixPatterns, Lower(line))
    || AllCapsSignal(line, words)
  }

  /** Signals 4 to 9: letter case, the colon, and the per-script markers. */
  predicate ShapeSignal(line: String, words: nat, script: Script) {
    || (script == Latin && IsTitleCase(line) && 3 <= words <= 10 && !EndsWith(line, ":"))
    || (script == Latin && HighUpperRatio(line) && words <= 10)
    || (EndsWith(line, ":") && 2 <= words <= 8)
    || (IsCjScript(script) && CjkSignal(line))
    || (script == Korean && HasKoreanMarker(line))
    || (script == Devanagari && HasDevanagariMarker(line))
  }

  /** Whether a line may be a heading: within the caps of its script and context, with at least one positive signal. */
  predicate IsCandidate(line: String, context: LineContext) {
    WithinCaps(line, context) && PositiveSignal(line, WordCount(line), ScriptOf(line))
  }

  /** The length caps of the line's script, and the context cap. */
  predicate WithinCaps(line: String, context: LineContext) {
    var script := ScriptOf(line);
    WordCount(line) <= MaxWords(script) && |line| <= MaxChars(script) && context.shortLinesNearby < 4
  }

  /** `is_multilingual_heading_candidate`: the caps, then the signals. */
  method IsMultilingualHeadingCandidate(line: String, context: LineContext) returns (candidate: bool)
    ensures candidate == IsCandidate(line, context)
  {
    var words := WordCount(line);
    var scriptType := DetectScriptType(line);
    var maxChars, maxWords := 120, 15;
    if scriptType == Chinese || scriptType == Japanese {
      maxChars, maxWords := 50, 20;
    }
    if words > maxWords || |line| > maxChars {
      CapsReject(line, context);
      return false;
    }
    if context.shortLinesNearby >= 4 {
      CapsReject(line, context);
      return false;
    }
    assert WithinCaps(line, context);
    candidate := HasPositiveSignal(line, words, scriptType);
  }

  /** The nine signals, tried in order; the first that holds accepts the line. */
  method HasPositiveSignal(line: String, words: nat, scriptType: Script) returns (signal: bool)
    ensures signal == PositiveSignal(line, words, scriptType)
  {
    signal := HasPatternSignal(line, words);
    if !signal {
      signal := HasShapeSignal(line, words, scriptType);
    }
  }

  method HasPatternSignal(line: String, words: nat) returns (signal: bool)
    ensures signal == PatternSignal(line, words)
  {
    var lowered := Lower(line);
    // 1. Numbered sections
    signal := SearchHeadingPatterns(NumberedSections, lowered);
    if signal {
      return;
    }
    // 2. Appendix patterns
    signal := SearchHeadingPatterns(AppendixPatterns, lowered);
    if signal {
      return;
    }
    // 3. All caps, unless an instruction or an address
    if IsAllUpper(line) && 2 <= words <= 8 {
      var isInstruction := SearchInstructionWords(lowered);
      signal := !isInstruction && !IsAddress(line);
    }
  }

  method HasShapeSignal(line: String, words: nat, scriptType: Script) returns (signal: bool)
    ensures signal == ShapeSignal(line, words, scriptType)
  {
    // 4. Title case
    if scriptType == Latin && IsTitleCase(line) && 3 <= words <= 10 && !EndsWith(line, ":") {
      return true;
    }
    // 5. High upper-case ratio
    if scriptType == Latin && HighUpperRatio(line) && words <= 10 {
      return true;
    }
    // 6. Colon-ended
    if EndsWith(line, ":") && 2 <= words <= 8 {
      return true;
    }
    // 7. Chinese and japanese markers, or a short line without a full stop
    if scriptType == Chinese || scriptType == Japanese {
      if HasNumeralComma(line) || HasCircledNumber(line) {
        return true;
      }
      if |line| <= 30 && !EndsWith(line, "。") {
        return true;
      }
    }
    // 8. Korean markers
    if scriptType == Korean && HasKoreanMarker(line) {
      return true;
    }
    // 9. Devanagari digits and section words
    if scriptType == Devanagari && HasDevanagariMarker(line) {
      return true;
    }
    return false;
  }

  /** Tries the patterns of the list in order and stops at the first that matches at the start of the lowered line. */
  method SearchHeadingPatterns(list: HeadingList, lowered: String) returns (found: bool)
    ensures found == AnyHeadingPattern(list, lowered)
  {
    for k := 0 to HeadingListSize(list)
      invariant AnyHeadingPattern(list, lowered) == AnyHeadingPatternFrom(list, k, lowered)
    {
      if HeadingPatternMatches(HeadingPatternAt(list, k), lowered) {
        return true;
      }
    }
    return false;
  }

  /** The `is_instruction` flag: set, and the loop left, at the first language
      one of whose words occurs in the lowered line. */
  method SearchInstructionWords(lowered: String) returns (isInstruction: bool)
    ensures isInstruction == AnyWordTableFrom(0, lowered)
  {
    isInstruction := false;
    for t := 0 to WordTableCount
      invariant !isInstruction
      invariant AnyWordTableFrom(0, lowered) == AnyWordTableFrom(t, lowered)
    {
      if AnyWordIn(InstructionWords(t).words, lowered) {
        isInstruction := true;
        break;
      }
    }
  }

  // ---------------------------------------------------------------------------
  // Properties
  // ---------------------------------------------------------------------------

  /** A line over its script's word or character cap, or in a dense context, is
      never a candidate: the caps are 20 words and 50 characters for chinese and
      japanese, 15 and 120 otherwise. */
  lemma CapsReject(line: String, context: LineContext)
    requires || WordCount(line) > MaxWords(ScriptOf(line))
             || |line| > MaxChars(ScriptOf(line))
             || context.shortLinesNearby >= 4
    ensures !IsCandidate(line, context)
  {
    assert !WithinCaps(line, context);
  }

  /** Lower-casing leaves digits, dots and whitespace in place, so decimal
      numbering is recognised in the lowered line exactly when in the line. */
  lemma DecimalNumberedLower(s: String)
    ensures IsDecimalNumbered(Lower(s)) == IsDecimalNumbered(s)
  {
    RunFromLower(s, 0, IsDigit);
    var d := RunFrom(s, 0, IsDigit);
    DotGroupsEndLower(s, d);
    OptionalDotThenSpaceLower(s, DotGroupsEnd(s, d));
  }

  lemma OptionalDotThenSpaceLower(s: String, i: nat)
    ensures OptionalDotThenSpace(Lower(s), i) == OptionalDotThenSpace(s, i)
  {
    assert i < |s| ==> Lower(s)[i] == ToLower(s[i]);
    assert i + 1 < |s| ==> Lower(s)[i + 1] == ToLower(s[i + 1]);
  }

  lemma {:induction false} DotGroupsEndLower(s: String, i: nat)
    requires i <= |s|
    ensures DotGroupsEnd(Lower(s), i) == DotGroupsEnd(s, i)
    decreases |s| - i
  {
    if i + 1 < |s| {
      assert Lower(s)[i] == ToLower(s[i]) && Lower(s)[i + 1] == ToLower(s[i + 1]);
      if s[i] == '.' && IsDigit(s[i + 1]) {
        RunFromLower(s, i + 1, IsDigit);
        DotGroupsEndLower(s, i + 1 + RunFrom(s, i + 1, IsDigit));
      }
    }
  }

  /** Within the caps and outside a dense context, a line that starts with
      decimal numbering followed by whitespace is a candidate. */
  lemma DecimalNumberedIsCandidate(line: String, context: LineContext)
    requires WordCount(line) <= MaxWords(ScriptOf(line)) && |line| <= MaxChars(ScriptOf(line))
    requires context.shortLinesNearby < 4
    requires IsDecimalNumbered(line)
    ensures IsCandidate(line, context)
  {
    DecimalNumberedLower(line);
    assert HeadingAtomMatches(HeadingPatternAt(NumberedSections, 0)[0], Lower(line));
    assert AnyHeadingPattern(NumberedSections, Lower(line));
  }
}
