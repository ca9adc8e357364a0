/** The title extractor: the cleaning of the first of the first ten lines of
    page one that passes script-dependent length bounds and the noise filter
    (adobe/main.py, `extract_multilingual_title`). */
module TitleExtractor {
  import opened Text
  import opened ScriptDetector
  import opened ContextAnalyzer
  import opened NoiseFilter
  import opened HeadingCandidate
  import opened HeadingCleaner

  /** Only the first ten lines of the first page are searched. */
  const TitleLines := 10

  /** The bounds for a stripped line: longer than 3 and shorter than 80
      characters and at most 25 words in chinese or japanese, otherwise
      longer than 5 and shorter than 100 characters and at most 15 words. */
  predicate WithinTitleBounds(lineClean: String) {
    if IsCjScript(ScriptOf(lineClean)) then 3 < |lineClean| < 80 && WordCount(lineClean) <= 25
    else 5 < |lineClean| < 100 && WordCount(lineClean) <= 15
  }

  /** A stripped line qualifies when it is within the bounds, not repeated,
      and not noise in an empty context. */
  predicate QualifiesAsTitle(lineClean: String, repeatedLines: set<String>) {
    WithinTitleBounds(lineClean) && lineClean !in repeatedLines && !IsNoise(lineClean, repeatedLines, EmptyContext)
  }

  /** Which lines qualify once stripped, in order. */
  function Qualifications(lines: seq<String>, repeatedLines: set<String>): (q: seq<bool>)
    ensures |q| == |lines|
  {
    seq(|lines|, j requires 0 <= j < |lines| => QualifiesAsTitle(Strip(lines[j]), repeatedLines))
  }

  /** The index of the first `true` from `k` on, if any. */
  function FirstTrueFrom(flags: seq<bool>, k: nat): (r: Option<nat>)
    requires k <= |flags|
    ensures r.Some? ==> k <= r.value < |flags| && flags[r.value]
    ensures r.Some? ==> forall j :: k <= j < r.value ==> !flags[j]
    ensures r.None? ==> forall j :: k <= j < |flags| ==> !flags[j]
    decreases |flags| - k
  {
    if k == |flags| then None
    else if flags[k] then Some(k)
    else FirstTrueFrom(flags, k + 1)
  }

  /** The lines searched for a title. */
  function TitleWindow(firstPageLines: seq<String>): (w: seq<String>)
    ensures |w| == Min(TitleLines, |firstPageLines|)
    ensures forall j :: 0 <= j < |w| ==> w[j] == firstPageLines[j]
  {
    firstPageLines[..Min(TitleLines, |firstPageLines|)]
  }

  /** `extract_multilingual_title(first_page_lines, repeated_lines)`: a title
      is shorter than 100 characters and neither starts nor ends with
      whitespace. */
  function TitleOf(firstPageLines: seq<String>, repeatedLines: set<String>): (title: String)
    ensures |title| < 100
    ensures title == [] || (!IsSpace(title[0]) && !IsSpace(title[|title| - 1]))
  {
    var window := TitleWindow(firstPageLines);
    var flags := Qualifications(window, repeatedLines);
    match FirstTrueFrom(flags, 0)
    case None => ""
    case Some(i) =>
      assert QualifiesAsTitle(Strip(window[i]), repeatedLines) == flags[i];
      CleanHeading(Strip(window[i]))
  }

  /** `extract_multilingual_title`. */
  method ExtractMultilingualTitle(firstPageLines: seq<String>, repeatedLines: set<String>) returns (title: String)
    ensures title == TitleOf(firstPageLines, repeatedLines)
  {
    var window := firstPageLines[..Min(TitleLines, |firstPageLines|)];
    assert TitleWindow(firstPageLines) == window;
    var found := FindTitleLine(window, repeatedLines);
    if found.Some? {
      return CleanHeading(Strip(window[found.value]));
    }
    return "";
  }

  /** The early-return search loop over the window. */
  method FindTitleLine(window: seq<String>, repeatedLines: set<String>) returns (found: Option<nat>)
    ensures found == FirstTrueFrom(Qualifications(window, repeatedLines), 0)
  {
    ghost var flags := Qualifications(window, repeatedLines);
    for i := 0 to |window|
      invariant FirstTrueFrom(flags, 0) == FirstTrueFrom(flags, i)
    {
      var lineClean := Strip(window[i]);
      var qualifies := QualifiesAsTitleCheck(lineClean, repeatedLines);
      assert flags[i] == qualifies;
      if qualifies {
        return Some(i);
      }
    }
    return None;
  }

  /** The test of one line: bounds, repetition, then the noise filter. */
  method QualifiesAsTitleCheck(lineClean: String, repeatedLines: set<String>) returns (qualifies: bool)
    ensures qualifies == QualifiesAsTitle(lineClean, repeatedLines)
  {
    var scriptType := DetectScriptType(lineClean);
    var minLen, maxLen, maxWords := 5, 100, 15;
    if scriptType == Chinese || scriptType == Japanese {
      minLen, maxLen, maxWords := 3, 80, 25;
    }
    if minLen < |lineClean| < maxLen && lineClean !in repeatedLines && WordCount(lineClean) <= maxWords {
      assert WithinTitleBounds(lineClean);
      var noise := IsMultilingualNoise(lineClean, repeatedLines, EmptyContext);
      return !noise;
    }
    assert !WithinTitleBounds(lineClean) || lineClean in repeatedLines;
    return false;
  }

  /** The first `true` of a sequence of flags is found. */
  lemma FirstTrueIs(flags: seq<bool>, i: nat)
    requires i < |flags| && flags[i]
    requires forall j :: 0 <= j < i ==> !flags[j]
    ensures FirstTrueFrom(flags, 0) == Some(i)
  {
  }

  /** With no qualifying line among the first ten, the title is empty. */
  lemma NoQualifyingLineNoTitle(firstPageLines: seq<String>, repeatedLines: set<String>)
    requires forall j :: 0 <= j < Min(TitleLines, |firstPageLines|) ==> !QualifiesAsTitle(Strip(firstPageLines[j]), repeatedLines)
    ensures TitleOf(firstPageLines, repeatedLines) == ""
  {
    var window := TitleWindow(firstPageLines);
    var flags := Qualifications(window, repeatedLines);
    forall j | 0 <= j < |flags| ensures !flags[j] {
      assert window[j] == firstPageLines[j];
    }
    assert FirstTrueFrom(flags, 0) == None;
  }

  /** Otherwise the title is the cleaning of the first qualifying line. */
  lemma FirstQualifyingLineIsTitle(firstPageLines: seq<String>, repeatedLines: set<String>, i: nat)
    requires i < Min(TitleLines, |firstPageLines|) && QualifiesAsTitle(Strip(firstPageLines[i]), repeatedLines)
    requires forall j :: 0 <= j < i ==> !QualifiesAsTitle(Strip(firstPageLines[j]), repeatedLines)
    ensures TitleOf(firstPageLines, repeatedLines) == CleanHeading(Strip(firstPageLines[i]))
  {
    var window := TitleWindow(firstPageLines);
    var flags := Qualifications(window, repeatedLines);
    assert flags[i] by {
      assert window[i] == firstPageLines[i];
    }
    forall j | 0 <= j < i ensures !flags[j] {
      assert window[j] == firstPageLines[j];
    }
    FirstTrueIs(flags, i);
  }

  /** Lines of three characters or fewer never give a title. */
  lemma ShortLinesGiveNoTitle(firstPageLines: seq<String>, repeatedLines: set<String>)
    requires forall j :: 0 <= j < |firstPageLines| ==> |Strip(firstPageLines[j])| <= 3
    ensures TitleOf(firstPageLines, repeatedLines) == ""
  {
    NoQualifyingLineNoTitle(firstPageLines, repeatedLines);
  }
}
