/** The noise filter: a first-true-wins cascade that discards running headers,
    fragments, boilerplate and form fields (adobe/main.py, `is_multilingual_noise`). */
module NoiseFilter {
  import opened Text
  import opened ContextAnalyzer
  import opened Catalogs

  /** `re.match(r'^[\d\s\-_.()]+$', s)`: a non-empty run of digits, whitespace and `-_.()`. */
  predicate IsNumbersAndMarks(s: String) {
    |s| > 0 && forall i :: 0 <= i < |s| ==> IsDigit(s[i]) || IsSpace(s[i]) || s[i] in "-_.()"
  }

  /** Each return of the cascade, as one disjunct. */
  predicate IsNoise(line: String, repeatedLines: set<String>, lineContext: LineContext) {
    var lineLower := Strip(Lower(line));
    || Strip(line) in repeatedLines
    || |lineLower| < 2
    || NoiseCatalogMatches(lineLower)
    || lineContext.shortLinesNearby >= 4
    || IsNumbersAndMarks(Strip(line))
  }

  /** `is_multilingual_noise`, with its search over the catalog. */
  method IsMultilingualNoise(line: String, repeatedLines: set<String>, lineContext: LineContext) returns (noise: bool)
    ensures noise == IsNoise(line, repeatedLines, lineContext)
  {
    var lineLower := Strip(Lower(line));
    if Strip(line) in repeatedLines {
      return true;
    }
    if |lineLower| < 2 {
      return true;
    }
    var listed := SearchCatalog(lineLower);
    if listed {
      return true;
    }
    if lineContext.shortLinesNearby >= 4 {
      return true;
    }
    return IsNumbersAndMarks(Strip(line));
  }

  /** The two nested loops over the catalog's tables and their patterns. */
  method SearchCatalog(lineLower: String) returns (found: bool)
    ensures found == NoiseCatalogMatches(lineLower)
  {
    for t := 0 to NoiseTableCount
      invariant NoTableBefore(t, lineLower)
    {
      found := SearchPatterns(NoiseTableAt(t).patterns, lineLower);
      if found {
        assert 0 <= t < NoiseTableCount && AnyNoisePattern(NoiseTableAt(t).patterns, lineLower);
        return;
      }
    }
    NoTableMatches(NoiseTableCount, lineLower);
    return false;
  }

  /** No table before the `t`-th matches. */
  predicate NoTableBefore(t: nat, lineLower: String) {
    t == 0 || (NoTableBefore(t - 1, lineLower) && !AnyNoisePattern(NoiseTableAt(t - 1).patterns, lineLower))
  }

  lemma {:induction false} NoTableMatches(t: nat, lineLower: String)
    requires NoTableBefore(t, lineLower)
    ensures forall u :: 0 <= u < t ==> !AnyNoisePattern(NoiseTableAt(u).patterns, lineLower)
  {
    if t > 0 {
      NoTableMatches(t - 1, lineLower);
      var last := NoiseTableAt(t - 1).patterns;
      assert !AnyNoisePattern(last, lineLower);
      forall u | 0 <= u < t ensures !AnyNoisePattern(NoiseTableAt(u).patterns, lineLower) {
        if u == t - 1 {
          assert NoiseTableAt(u).patterns == last;
        }
      }
    }
  }

  /** The inner loop: `re.search` of each pattern of one table. */
  method SearchPatterns(patterns: seq<NoisePattern>, lineLower: String) returns (found: bool)
    ensures found == AnyNoisePattern(patterns, lineLower)
  {
    for k := 0 to |patterns|
      invariant AnyNoisePattern(patterns, lineLower) == AnyNoisePattern(patterns[k..], lineLower)
    {
      assert patterns[k..][1..] == patterns[k + 1..];
      if NoisePatternMatches(patterns[k], lineLower) {
        return true;
      }
    }
    return false;
  }

  /** A line whose stripped text is in the repeated set is noise. */
  lemma RepeatedIsNoise(line: String, repeatedLines: set<String>, lineContext: LineContext)
    requires Strip(line) in repeatedLines
    ensures IsNoise(line, repeatedLines, lineContext)
  {
  }

  /** A line whose stripped form has fewer than two characters is noise. */
  lemma ShortIsNoise(line: String, repeatedLines: set<String>, lineContext: LineContext)
    requires |Strip(line)| < 2
    ensures IsNoise(line, repeatedLines, lineContext)
  {
    StripLower(line);
  }

  /** Any line is noise when four or more short lines surround it. */
  lemma DenseContextIsNoise(line: String, repeatedLines: set<String>, lineContext: LineContext)
    requires lineContext.shortLinesNearby >= 4
    ensures IsNoise(line, repeatedLines, lineContext)
  {
  }

  /** The catalog entry at table `t`, pattern `k`, alternative `a` is a phrase
      contained in the lower-cased stripped line: the line is noise. */
  lemma PhraseMakesNoise(line: String, repeatedLines: set<String>, lineContext: LineContext, t: nat, k: nat, a: nat)
    requires t < NoiseTableCount && k < |NoiseTableAt(t).patterns| && a < |NoiseTableAt(t).patterns[k]|
    requires NoiseTableAt(t).patterns[k][a].Phrase?
    requires Contains(Strip(Lower(line)), NoiseTableAt(t).patterns[k][a].text)
    ensures IsNoise(line, repeatedLines, lineContext)
  {
    var s := Strip(Lower(line));
    NoiseAtomInPattern(NoiseTableAt(t).patterns[k], s, a);
    NoisePatternInList(NoiseTableAt(t).patterns, s, k);
  }

  /** Every appendix signal of the candidacy test, except the Spanish `anexo`,
      fires only on lines the noise filter has already discarded: its keyword
      (`appendix`, `annexe`, `anhang`, `परिशिष्ट`, `附录`, `付録`, `부록`) is a
      noise phrase. Lines reaching the filter are stripped. */
  lemma AppendixLinesAreNoise(line: String, repeatedLines: set<String>, lineContext: LineContext, k: nat)
    requires Strip(line) == line
    requires k < HeadingListSize(AppendixPatterns) && k != 1
    requires HeadingPatternMatches(HeadingPatternAt(AppendixPatterns, k), Lower(line))
    ensures IsNoise(line, repeatedLines, lineContext)
  {
    StripLower(line);
    var s := Lower(line);
    var t := AppendixNoiseTable(k);
    var atom := HeadingPatternAt(AppendixPatterns, k)[0];
    SingleAtomPattern(HeadingPatternAt(AppendixPatterns, k), s);
    KeywordIsNoisePhrase(s, atom.keyword, t);
    PhraseMakesNoise(line, repeatedLines, lineContext, t, 1, 2);
  }

  /** The noise table whose second pattern lists, third, the keyword of appendix pattern `k`. */
  function AppendixNoiseTable(k: nat): (t: nat)
    requires k < HeadingListSize(AppendixPatterns) && k != 1
    ensures |HeadingPatternAt(AppendixPatterns, k)| == 1 && HeadingPatternAt(AppendixPatterns, k)[0].KeywordLetter?
    ensures t < NoiseTableCount && |NoiseTableAt(t).patterns| == 2 && |NoiseTableAt(t).patterns[1]| == 3
    ensures NoiseTableAt(t).patterns[1][2] == Phrase(HeadingPatternAt(AppendixPatterns, k)[0].keyword)
  {
    match k
    case 0 => 1
    case 2 => 7
    case 3 => 8
    case 4 => 2
    case 5 => 3
    case 6 => 4
    case 7 => 5
  }

  lemma SingleAtomPattern(pattern: HeadingPattern, s: String)
    requires |pattern| == 1 && HeadingPatternMatches(pattern, s)
    ensures HeadingAtomMatches(pattern[0], s)
  {
  }

  lemma KeywordIsNoisePhrase(s: String, keyword: String, t: nat)
    requires t < NoiseTableCount && |NoiseTableAt(t).patterns| == 2 && |NoiseTableAt(t).patterns[1]| == 3
    requires NoiseTableAt(t).patterns[1][2] == Phrase(keyword)
    requires StartsWith(s, keyword)
    ensures Contains(s, NoiseTableAt(t).patterns[1][2].text)
  {
  }
}
