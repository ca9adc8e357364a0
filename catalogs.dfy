/** The rule catalogs of adobe/main.py (lines 13-92) as immutable, language-tagged
    tables, and hand-written matchers for each kind of regular expression they use.
    A regular expression `a|b|c` is the sequence of its alternatives. */
module Catalogs {
  import opened Text

  // ---------------------------------------------------------------------------
  // Noise patterns (searched anywhere in the lower-cased, stripped line)
  // ---------------------------------------------------------------------------

  datatype NoiseAtom =
    | Phrase(text: String)                       // a literal alternative
    | PhraseNumber(text: String, spaced: bool)   // `text\s*\d` when spaced, `text\d` otherwise
    | LeaderRun(length: nat)                     // `[.\-_]{length,}`
    | TimePrefix                                 // `^\d{1,2}:\d{2}`
    | DatePrefix                                 // `^\d{1,2}/\d{1,2}/\d{2,4}`
    | OnlyPunctuation                            // `^[^\w\s]*$`

  type NoisePattern = seq<NoiseAtom>

  datatype NoiseTable = NoiseTable(lang: String, patterns: seq<NoisePattern>)

  /** The number of tables of the noise catalog. */
  const NoiseTableCount := 9

  /** The tables of the noise catalog, in their order of declaration. */
  function NoiseTableAt(t: nat): NoiseTable
  {
    match t
    case 0 => NoiseTable("universal", [
      [Phrase("copyright"), Phrase("©"), Phrase("®"), Phrase("™")],
      [PhraseNumber("page ", false), PhraseNumber("页", true), PhraseNumber("ページ", true),
       PhraseNumber("페이지", true), PhraseNumber("página", true), PhraseNumber("seite", true)],
      [Phrase("version"), Phrase("संस्करण"), Phrase("版本"), Phrase("バージョン"), Phrase("버전"),
       Phrase("versión"), Phrase("version")],
      [Phrase("www."), Phrase("http"), Phrase(".com"), Phrase(".org")],
      [LeaderRun(4)],
      [TimePrefix, DatePrefix],
      [OnlyPunctuation]
    ])
    case 1 => NoiseTable("english", [
      [Phrase("all rights reserved"), Phrase("confidential"), Phrase("internal use"), Phrase("draft")],
      [Phrase("table of contents"), Phrase("index"), Phrase("appendix")]
    ])
    case 2 => NoiseTable("hindi", [
      [Phrase("सभी अधिकार सुरक्षित"), Phrase("गोपनीय"), Phrase("आंतरिक उपयोग"), Phrase("मसौदा")],
      [Phrase("विषय सूची"), Phrase("अनुक्रमणिका"), Phrase("परिशिष्ट")]
    ])
    case 3 => NoiseTable("chinese", [
      [Phrase("版权所有"), Phrase("保密"), Phrase("内部使用"), Phrase("草稿")],
      [Phrase("目录"), Phrase("索引"), Phrase("附录")]
    ])
    case 4 => NoiseTable("japanese", [
      [Phrase("著作権"), Phrase("機密"), Phrase("内部使用"), Phrase("下書き")],
      [Phrase("目次"), Phrase("索引"), Phrase("付録")]
    ])
    case 5 => NoiseTable("korean", [
      [Phrase("저작권"), Phrase("기밀"), Phrase("내부 사용"), Phrase("초안")],
      [Phrase("목차"), Phrase("색인"), Phrase("부록")]
    ])
    case 6 => NoiseTable("spanish", [
      [Phrase("derechos reservados"), Phrase("confidencial"), Phrase("uso interno"), Phrase("borrador")],
      [Phrase("índice"), Phrase("tabla de contenidos"), Phrase("apéndice")]
    ])
    case 7 => NoiseTable("french", [
      [Phrase("droits réservés"), Phrase("confidentiel"), Phrase("usage interne"), Phrase("brouillon")],
      [Phrase("table des matières"), Phrase("index"), Phrase("annexe")]
    ])
    case _ => NoiseTable("german", [
      [Phrase("alle rechte vorbehalten"), Phrase("vertraulich"), Phrase("interne verwendung"), Phrase("entwurf")],
      [Phrase("inhaltsverzeichnis"), Phrase("index"), Phrase("anhang")]
    ])
  }

  predicate IsLeaderChar(c: char) {
    c == '.' || c == '-' || c == '_'
  }

  /** `text` starts `s` and is followed by a digit, after any whitespace when `spaced`. */
  predicate PhraseNumberAt(s: String, text: String, spaced: bool) {
    && StartsWith(s, text)
    && var k := |text| + (if spaced then RunFrom(s, |text|, IsSpace) else 0);
       k < |s| && IsDigit(s[k])
  }

  /** `re.search(text + r'\s*\d+', s)`, or without `\s*` when not spaced. */
  predicate HasPhraseNumber(s: String, text: String, spaced: bool)
    decreases |s|
  {
    PhraseNumberAt(s, text, spaced) || (|s| > 0 && HasPhraseNumber(s[1..], text, spaced))
  }

  /** `re.search(r'[.\-_]{n,}', s)`. */
  predicate HasLeaderRun(s: String, n: nat)
    decreases |s|
  {
    RunFrom(s, 0, IsLeaderChar) >= n || (|s| > 0 && HasLeaderRun(s[1..], n))
  }

  /** `re.match(r'\d{1,2}:\d{2}', s)`: the greedy `\d{1,2}` must be followed by the colon. */
  predicate IsTimePrefix(s: String) {
    || (|s| >= 4 && IsDigit(s[0]) && s[1] == ':' && IsDigit(s[2]) && IsDigit(s[3]))
    || (|s| >= 5 && IsDigit(s[0]) && IsDigit(s[1]) && s[2] == ':' && IsDigit(s[3]) && IsDigit(s[4]))
  }

  predicate AllDigits(s: String) {
    forall i :: 0 <= i < |s| ==> IsDigit(s[i])
  }

  /** `a` digits, a slash, `b` digits, a slash and two more digits start `s`. */
  predicate DateShape(s: String, a: nat, b: nat) {
    && a + b + 4 <= |s|
    && AllDigits(s[..a]) && s[a] == '/'
    && AllDigits(s[a + 1..a + 1 + b]) && s[a + 1 + b] == '/'
    && IsDigit(s[a + b + 2]) && IsDigit(s[a + b + 3])
  }

  /** `re.match(r'\d{1,2}/\d{1,2}/\d{2,4}', s)`. */
  predicate IsDatePrefix(s: String) {
    DateShape(s, 1, 1) || DateShape(s, 1, 2) || DateShape(s, 2, 1) || DateShape(s, 2, 2)
  }

  /** `re.search(r'^[^\w\s]*$', s)`. */
  predicate IsOnlyPunctuation(s: String) {
    forall i :: 0 <= i < |s| ==> !IsWordChar(s[i]) && !IsSpace(s[i])
  }

  predicate NoiseAtomMatches(atom: NoiseAtom, s: String) {
    match atom
    case Phrase(text) => Contains(s, text)
    case PhraseNumber(text, spaced) => HasPhraseNumber(s, text, spaced)
    case LeaderRun(n) => HasLeaderRun(s, n)
    case TimePrefix => IsTimePrefix(s)
    case DatePrefix => IsDatePrefix(s)
    case OnlyPunctuation => IsOnlyPunctuation(s)
  }

  /** `re.search(pattern, s)`: some alternative matches. */
  predicate NoisePatternMatches(pattern: NoisePattern, s: String)
    decreases |pattern|
  {
    |pattern| > 0 && (NoiseAtomMatches(pattern[0], s) || NoisePatternMatches(pattern[1..], s))
  }

  /** Some pattern of the list matches. */
  predicate AnyNoisePattern(patterns: seq<NoisePattern>, s: String)
    decreases |patterns|
  {
    |patterns| > 0 && (NoisePatternMatches(patterns[0], s) || AnyNoisePattern(patterns[1..], s))
  }

  /** Some pattern of some table of the noise catalog matches. */
  predicate NoiseCatalogMatches(s: String) {
    exists t :: 0 <= t < NoiseTableCount && AnyNoisePattern(NoiseTableAt(t).patterns, s)
  }

  /** A matching alternative makes its pattern match. */
  lemma {:induction false} NoiseAtomInPattern(pattern: NoisePattern, s: String, a: nat)
    requires a < |pattern| && NoiseAtomMatches(pattern[a], s)
    ensures NoisePatternMatches(pattern, s)
  {
    if a > 0 {
      NoiseAtomInPattern(pattern[1..], s, a - 1);
    }
  }

  /** A matching pattern makes its list match. */
  lemma {:induction false} NoisePatternInList(patterns: seq<NoisePattern>, s: String, k: nat)
    requires k < |patterns| && NoisePatternMatches(patterns[k], s)
    ensures AnyNoisePattern(patterns, s)
  {
    if k > 0 {
      NoisePatternInList(patterns[1..], s, k - 1);
    }
  }

  // ---------------------------------------------------------------------------
  // Heading patterns (anchored at the start of the line)
  // ---------------------------------------------------------------------------

  datatype HeadingAtom =
    | DecimalNumbering                          // `^\d+(\.\d+)*\.?\s+`
    | MarkedNumber(before: String, after: char) // `^before\d+after`
    | KeywordNumber(keyword: String)            // `^keyword\s*\d+`
    | KeywordLetter(keyword: String, spaceRequired: bool) // `^keyword\s+[a-z]`, or `\s*` when not required

  type HeadingPattern = seq<HeadingAtom>

  /** The two pattern lists of the heading catalog. */
  datatype HeadingList = NumberedSections | AppendixPatterns

  function HeadingListSize(list: HeadingList): nat {
    match list
    case NumberedSections => 9
    case AppendixPatterns => 8
  }

  /** The patterns of each list, in their order of declaration. */
  function HeadingPatternAt(list: HeadingList, k: nat): HeadingPattern
  {
    match list
    case NumberedSections => (
      match k
      case 0 => [DecimalNumbering]                                   // universal
      case 1 => [MarkedNumber("第", '章'), MarkedNumber("第", '节')]  // Chinese
      case 2 => [MarkedNumber("第", '章'), MarkedNumber("第", '節')]  // Traditional Chinese
      case 3 => [MarkedNumber("", '장'), MarkedNumber("", '절')]      // Korean
      case 4 => [MarkedNumber("第", '章')]                            // Japanese
      case 5 => [KeywordNumber("अध्याय"), KeywordNumber("खंड")]       // Hindi
      case 6 => [KeywordNumber("capítulo"), KeywordNumber("sección")] // Spanish
      case 7 => [KeywordNumber("chapitre"), KeywordNumber("section")] // French
      case _ => [KeywordNumber("kapitel"), KeywordNumber("abschnitt")] // German
    )
    case AppendixPatterns => (
      match k
      case 0 => [KeywordLetter("appendix", true)]    // English
      case 1 => [KeywordLetter("anexo", true)]       // Spanish
      case 2 => [KeywordLetter("annexe", true)]      // French
      case 3 => [KeywordLetter("anhang", true)]      // German
      case 4 => [KeywordLetter("परिशिष्ट", false)]   // Hindi
      case 5 => [KeywordLetter("附录", false)]        // Chinese
      case 6 => [KeywordLetter("付録", false)]        // Japanese
      case _ => [KeywordLetter("부록", false)]        // Korean
    )
  }

  /** The number of `.digits` groups that follow position `i` (greedy). */
  function DotGroupCount(s: String, i: nat): nat
    requires i <= |s|
    decreases |s| - i
  {
    if i + 1 < |s| && s[i] == '.' && IsDigit(s[i + 1]) then 1 + DotGroupCount(s, i + 1 + RunFrom(s, i + 1, IsDigit))
    else 0
  }

  /** The position just after the `.digits` groups that follow position `i`. */
  function DotGroupsEnd(s: String, i: nat): (e: nat)
    requires i <= |s|
    ensures i <= e <= |s|
    decreases |s| - i
  {
    if i + 1 < |s| && s[i] == '.' && IsDigit(s[i + 1]) then DotGroupsEnd(s, i + 1 + RunFrom(s, i + 1, IsDigit))
    else i
  }

  /** Position `i` holds whitespace, or a dot followed by whitespace: `\.?\s`. */
  predicate OptionalDotThenSpace(s: String, i: nat) {
    (i < |s| && IsSpace(s[i])) || (i + 1 < |s| && s[i] == '.' && IsSpace(s[i + 1]))
  }

  /** `re.match(r'\d+(\.\d+)*\.?\s+', s)`: only the greedy reading of the digit
      groups can be followed by whitespace, so no backtracking is needed. */
  predicate IsDecimalNumbered(s: String) {
    var d := RunFrom(s, 0, IsDigit);
    d > 0 && OptionalDotThenSpace(s, DotGroupsEnd(s, d))
  }

  /** `re.match(before + r'\d+' + after, s)`. */
  predicate IsMarkedNumber(s: String, before: String, after: char) {
    && StartsWith(s, before)
    && var d := RunFrom(s, |before|, IsDigit);
       d > 0 && |before| + d < |s| && s[|before| + d] == after
  }

  /** `re.match(keyword + r'\s*\d+', s)`. */
  predicate IsKeywordNumber(s: String, keyword: String) {
    && StartsWith(s, keyword)
    && var k := |keyword| + RunFrom(s, |keyword|, IsSpace);
       k < |s| && IsDigit(s[k])
  }

  /** `re.match(keyword + r'\s+[a-z]', s)`, or `\s*` when no space is required. */
  predicate IsKeywordLetter(s: String, keyword: String, spaceRequired: bool) {
    && StartsWith(s, keyword)
    && var w := RunFrom(s, |keyword|, IsSpace);
       (w > 0 || !spaceRequired) && |keyword| + w < |s| && 'a' <= s[|keyword| + w] <= 'z'
  }

  predicate HeadingAtomMatches(atom: HeadingAtom, s: String) {
    match atom
    case DecimalNumbering => IsDecimalNumbered(s)
    case MarkedNumber(before, after) => IsMarkedNumber(s, before, after)
    case KeywordNumber(keyword) => IsKeywordNumber(s, keyword)
    case KeywordLetter(keyword, spaceRequired) => IsKeywordLetter(s, keyword, spaceRequired)
  }

  /** `re.match(pattern, s)`: some alternative matches. */
  predicate HeadingPatternMatches(pattern: HeadingPattern, s: String)
    decreases |pattern|
  {
    |pattern| > 0 && (HeadingAtomMatches(pattern[0], s) || HeadingPatternMatches(pattern[1..], s))
  }

  /** Some pattern of the list from the `k`-th on matches. */
  predicate AnyHeadingPatternFrom(list: HeadingList, k: nat, s: String)
    decreases HeadingListSize(list) - k
  {
    k < HeadingListSize(list) && (HeadingPatternMatches(HeadingPatternAt(list, k), s) || AnyHeadingPatternFrom(list, k + 1, s))
  }

  /** Some pattern of the list matches. */
  predicate AnyHeadingPattern(list: HeadingList, s: String) {
    AnyHeadingPatternFrom(list, 0, s)
  }

  /** A matching pattern makes its list match. */
  lemma {:induction false} HeadingPatternInList(list: HeadingList, s: String, from: nat, k: nat)
    requires from <= k < HeadingListSize(list) && HeadingPatternMatches(HeadingPatternAt(list, k), s)
    ensures AnyHeadingPatternFrom(list, from, s)
    decreases k - from
  {
    if from < k {
      HeadingPatternInList(list, s, from + 1, k);
    }
  }

  // ---------------------------------------------------------------------------
  // Instruction words
  // ---------------------------------------------------------------------------

  datatype WordTable = WordTable(lang: String, words: seq<String>)

  const WordTableCount := 8

  /** The instruction-word tables, in their order of declaration. */
  function InstructionWords(t: nat): WordTable
  {
    match t
    case 0 => WordTable("english", ["required", "please", "visit", "fill", "complete", "enter", "select"])
    case 1 => WordTable("hindi", ["आवश्यक", "कृपया", "भरें", "पूरा", "दर्ज", "चुनें"])
    case 2 => WordTable("chinese", ["必需", "请", "填写", "完成", "输入", "选择"])
    case 3 => WordTable("japanese", ["必要", "してください", "記入", "完了", "入力", "選択"])
    case 4 => WordTable("korean", ["필수", "제발", "채우다", "완료", "입력", "선택"])
    case 5 => WordTable("spanish", ["requerido", "por favor", "llenar", "completar", "entrar", "seleccionar"])
    case 6 => WordTable("french", ["requis", "s'il vous plaît", "remplir", "compléter", "entrer", "sélectionner"])
    case _ => WordTable("german", ["erforderlich", "bitte", "ausfüllen", "vervollständigen", "eingeben", "auswählen"])
  }

  /** Some word of the list, lower-cased, occurs in the lowered line. */
  predicate AnyWordIn(words: seq<String>, loweredLine: String)
    decreases |words|
  {
    |words| > 0 && (Contains(loweredLine, Lower(words[0])) || AnyWordIn(words[1..], loweredLine))
  }

  /** Some word of some table from the `t`-th on occurs in the lowered line. */
  predicate AnyWordTableFrom(t: nat, loweredLine: String)
    decreases WordTableCount - t
  {
    t < WordTableCount && (AnyWordIn(InstructionWords(t).words, loweredLine) || AnyWordTableFrom(t + 1, loweredLine))
  }
}
