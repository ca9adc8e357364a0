/** Heading levels: a first-true-wins cascade from numbering depth, chapter
    and section markers, appendix keywords and punctuation to H1..H4
    (adobe/main.py, `get_multilingual_heading_level`). */
module HeadingLevels {
  import opened Text
  import opened ScriptDetector
  import opened Catalogs
  import opened HeadingCandidate

  datatype Level = H1 | H2 | H3 | H4

  /** The number of numeric components of a leading `1.2.3` numbering, read
      greedily; 0 when the text does not start with a digit. */
  function NumberingDepth(t: String): nat {
    var d := RunFrom(t, 0, IsDigit);
    if d > 0 then 1 + DotGroupCount(t, d) else 0
  }

  /** The level the depth of a section number gives. */
  function DepthLevel(depth: nat): Level {
    if depth >= 4 then H4 else if depth == 3 then H3 else if depth == 2 then H2 else H1
  }

  /** `get_multilingual_heading_level(text)`. Only a four-part numbering gives H4. */
  function HeadingLevel(text: String): (level: Level)
    ensures level == H4 <==> NumberingDepth(Strip(text)) >= 4
  {
    var t := Strip(text);
    var depth := NumberingDepth(t);
    if depth >= 4 then H4
    else if depth == 3 then H3
    else if depth == 2 then H2
    else if depth == 1 && OptionalDotThenSpace(t, RunFrom(t, 0, IsDigit)) then H1
    else if IsMarkedNumber(t, "第", '章') then H1
    else if IsMarkedNumber(t, "第", '节') || IsMarkedNumber(t, "第", '節') then H2
    else if IsMarkedNumber(t, "", '장') then H1
    else if IsMarkedNumber(t, "", '절') then H2
    else if IsKeywordNumber(t, "अध्याय") then H1
    else if IsKeywordNumber(t, "खंड") || IsKeywordNumber(t, "भाग") then H2
    else if AnyHeadingPattern(AppendixPatterns, Lower(t)) then H2
    else if EndsWith(t, ":") && WordCount(t) <= 5 then H3
    else if IsCjScript(ScriptOf(t)) && HasNumeralComma(t) then H2
    else if IsCjScript(ScriptOf(t)) && HasCircledNumber(t) then H3
    else H1
  }

  // ---------------------------------------------------------------------------
  // Section numbers
  // ---------------------------------------------------------------------------

  /** A non-empty run of decimal digits. */
  predicate IsNumeral(p: String) {
    |p| > 0 && forall i :: 0 <= i < |p| ==> IsDigit(p[i])
  }

  predicate AllNumerals(parts: seq<String>) {
    forall k :: 0 <= k < |parts| ==> IsNumeral(parts[k])
  }

  /** `.p1.p2...`: each part preceded by a dot. */
  function DotGroups(parts: seq<String>): String {
    if parts == [] then [] else "." + parts[0] + DotGroups(parts[1..])
  }

  /** `p0.p1.p2...`. */
  function SectionNumber(parts: seq<String>): String
    requires |parts| > 0
  {
    parts[0] + DotGroups(parts[1..])
  }

  /** Position `j` ends the digit groups: no digit and no `.digit` there. */
  predicate EndsGroups(s: String, j: nat) {
    j >= |s| || (!IsDigit(s[j]) && !(j + 1 < |s| && s[j] == '.' && IsDigit(s[j + 1])))
  }

  /** The greedy reading of `DotGroups(parts)` after `before` finds every part. */
  lemma DotGroupsCounted(before: String, parts: seq<String>, after: String)
    requires AllNumerals(parts)
    requires EndsGroups(after, 0)
    ensures DotGroupCount(before + DotGroups(parts) + after, |before|) == |parts|
  {
    var s := before + DotGroups(parts) + after;
    var e := |before| + |DotGroups(parts)|;
    assert s[|before|..e] == DotGroups(parts);
    assert EndsGroups(s, e) by {
      assert e < |s| ==> s[e] == after[0];
      assert e + 1 < |s| ==> s[e + 1] == after[1];
    }
    DotGroupsCountedAt(s, |before|, parts);
  }

  /** The same, for the groups found in `s` at position `i`. */
  lemma {:induction false} DotGroupsCountedAt(s: String, i: nat, parts: seq<String>)
    requires AllNumerals(parts)
    requires i + |DotGroups(parts)| <= |s| && s[i..i + |DotGroups(parts)|] == DotGroups(parts)
    requires EndsGroups(s, i + |DotGroups(parts)|)
    ensures DotGroupCount(s, i) == |parts|
    decreases |parts|
  {
    if parts != [] {
      var p, rest := parts[0], parts[1..];
      var j := i + 1 + |p|;
      var e := i + |DotGroups(parts)|;
      assert DotGroups(parts) == "." + p + DotGroups(rest);
      assert s[j..e] == DotGroups(parts)[1 + |p|..] == DotGroups(rest);
      assert DotGroupCount(s, i) == 1 + DotGroupCount(s, j) by {
        assert s[i] == DotGroups(parts)[0] == '.';
        assert forall k :: i + 1 <= k < j ==> s[k] == DotGroups(parts)[k - i] == p[k - i - 1];
        assert j == |s| || !IsDigit(s[j]) by {
          if rest != [] {
            assert s[j] == DotGroups(rest)[0] == '.';
          }
        }
        DotGroupStep(s, i, |p|);
      }
      assert AllNumerals(rest) by {
        forall k | 0 <= k < |rest| ensures IsNumeral(rest[k]) {
          assert rest[k] == parts[k + 1];
        }
      }
      DotGroupsCountedAt(s, j, rest);
    }
  }

  /** One `.digits` group at `i`, read greedily, is counted and skipped. */
  lemma DotGroupStep(s: String, i: nat, n: nat)
    requires 0 < n && i + 1 + n <= |s| && s[i] == '.'
    requires forall k :: i + 1 <= k < i + 1 + n ==> IsDigit(s[k])
    requires i + 1 + n == |s| || !IsDigit(s[i + 1 + n])
    ensures DotGroupCount(s, i) == 1 + DotGroupCount(s, i + 1 + n)
  {
    RunFromExact(s, i + 1, n, IsDigit);
  }

  /** Once the numbering is read, its depth alone decides the level. */
  lemma NumberedLevel(t: String)
    requires Strip(t) == t
    requires NumberingDepth(t) >= 2 || (NumberingDepth(t) == 1 && OptionalDotThenSpace(t, RunFrom(t, 0, IsDigit)))
    ensures HeadingLevel(t) == DepthLevel(NumberingDepth(t))
  {
  }

  /** A section number `p0.p1...`, an optional dot, then a title that starts
      with whitespace: the number of parts decides the level, whatever the
      title says. */
  lemma LevelOfSectionNumber(parts: seq<String>, dot: bool, title: String)
    requires |parts| > 0 && AllNumerals(parts)
    requires |title| > 0 && IsSpace(title[0]) && !IsSpace(title[|title| - 1])
    ensures HeadingLevel(SectionNumber(parts) + (if dot then "." else "") + title) == DepthLevel(|parts|)
  {
    var t := SectionNumber(parts) + (if dot then "." else "") + title;
    SectionNumberRead(parts, dot, title);
    NumberedLevel(t);
  }

  /** How the numbering of such a line is read. */
  lemma SectionNumberRead(parts: seq<String>, dot: bool, title: String)
    requires |parts| > 0 && AllNumerals(parts)
    requires |title| > 0 && IsSpace(title[0]) && !IsSpace(title[|title| - 1])
    ensures var t := SectionNumber(parts) + (if dot then "." else "") + title;
      && Strip(t) == t
      && NumberingDepth(t) == |parts|
      && (|parts| == 1 ==> OptionalDotThenSpace(t, RunFrom(t, 0, IsDigit)))
  {
    var stop: String := if dot then "." else "";
    var t := SectionNumber(parts) + stop + title;
    assert Strip(t) == t by {
      assert t[0] == parts[0][0];
      assert t[|t| - 1] == title[|title| - 1];
      StripUnchanged(t);
    }
    assert SectionNumber(parts) + (stop + title) == t;
    assert EndsGroups(stop + title, 0) by {
      if dot {
        assert (stop + title)[1] == title[0];
      }
    }
    SectionNumberDepth(parts, stop + title);
    if |parts| == 1 {
      var n := |parts[0]|;
      assert SectionNumber(parts) == parts[0];
      assert t[n..] == stop + title;
      if dot {
        assert t[n] == '.' && t[n + 1] == title[0];
      } else {
        assert t[n] == title[0];
      }
    }
  }

  /** A section number followed by text that does not extend it has as many
      components as parts. */
  lemma SectionNumberDepth(parts: seq<String>, rest: String)
    requires |parts| > 0 && AllNumerals(parts)
    requires EndsGroups(rest, 0)
    ensures var t := SectionNumber(parts) + rest;
      && RunFrom(t, 0, IsDigit) == |parts[0]|
      && NumberingDepth(t) == |parts|
  {
    var p := parts[0];
    var t := SectionNumber(parts) + rest;
    assert t == p + DotGroups(parts[1..]) + rest;
    assert AllNumerals(parts[1..]) by {
      forall k | 0 <= k < |parts[1..]| ensures IsNumeral(parts[1..][k]) {
        assert parts[1..][k] == parts[k + 1];
      }
    }
    assert RunFrom(t, 0, IsDigit) == |p| by {
      assert forall k :: 0 <= k < |p| ==> t[k] == p[k];
      if parts[1..] != [] {
        assert t[|p|] == '.';
      } else {
        assert t[|p|..] == rest;
      }
      RunFromExact(t, 0, |p|, IsDigit);
    }
    DotGroupsCounted(p, parts[1..], rest);
  }

  /** "1.2.3.4 Details" is H4. */
  lemma FourPartNumberIsH4()
    ensures HeadingLevel("1.2.3.4 Details") == H4
  {
    assert SectionNumber(["1", "2", "3", "4"]) + "" + " Details" == "1.2.3.4 Details";
    LevelOfSectionNumber(["1", "2", "3", "4"], false, " Details");
  }

  /** "1.2 Overview" is H2. */
  lemma TwoPartNumberIsH2()
    ensures HeadingLevel("1.2 Overview") == H2
  {
    assert SectionNumber(["1", "2"]) + "" + " Overview" == "1.2 Overview";
    LevelOfSectionNumber(["1", "2"], false, " Overview");
  }

  /** "1. Introduction" is H1: the dot after a single number is no group. */
  lemma NumberWithDotIsH1()
    ensures HeadingLevel("1. Introduction") == H1
  {
    assert SectionNumber(["1"]) + "." + " Introduction" == "1. Introduction";
    LevelOfSectionNumber(["1"], true, " Introduction");
  }

  /** What is left of the cascade for a stripped line that starts with no
      digit and no chapter or section marker. */
  function UnmarkedLevel(t: String): Level {
    if AnyHeadingPattern(AppendixPatterns, Lower(t)) then H2
    else if EndsWith(t, ":") && WordCount(t) <= 5 then H3
    else if IsCjScript(ScriptOf(t)) && HasNumeralComma(t) then H2
    else if IsCjScript(ScriptOf(t)) && HasCircledNumber(t) then H3
    else H1
  }

  /** The first character rules out numbering and every chapter or section marker. */
  predicate StartsUnmarked(t: String) {
    |t| > 0 && !IsDigit(t[0]) && t[0] != '第' && t[0] != 'अ' && t[0] != 'ख' && t[0] != 'भ'
  }

  /** A line without numbering or markers falls through to the rest of the cascade. */
  lemma UnmarkedLine(t: String)
    requires Strip(t) == t && StartsUnmarked(t)
    ensures HeadingLevel(t) == UnmarkedLevel(t)
  {
    assert RunFrom(t, 0, IsDigit) == 0;
    assert NumberingDepth(t) == 0;
    assert !IsMarkedNumber(t, "第", '章') && !IsMarkedNumber(t, "第", '节') && !IsMarkedNumber(t, "第", '節') by {
      assert "第"[0] == '第';
    }
    assert !IsMarkedNumber(t, "", '장') && !IsMarkedNumber(t, "", '절');
    assert !IsKeywordNumber(t, "अध्याय") by {
      assert "अध्याय"[0] == 'अ';
    }
    assert !IsKeywordNumber(t, "खंड") by {
      assert "खंड"[0] == 'ख';
    }
    assert !IsKeywordNumber(t, "भाग") by {
      assert "भाग"[0] == 'भ';
    }
  }

  /** A line matching an appendix pattern, and not numbered or marked, is H2. */
  lemma AppendixLineIsH2(t: String, k: nat)
    requires Strip(t) == t && StartsUnmarked(t)
    requires k < HeadingListSize(AppendixPatterns) && HeadingPatternMatches(HeadingPatternAt(AppendixPatterns, k), Lower(t))
    ensures HeadingLevel(t) == H2
  {
    UnmarkedLine(t);
    HeadingPatternInList(AppendixPatterns, Lower(t), 0, k);
  }

  /** "Appendix A: Notes" is H2: the appendix keyword, matched without case. */
  lemma AppendixIsH2()
    ensures HeadingLevel("Appendix A: Notes") == H2
  {
    var t := "Appendix A: Notes";
    StripUnchanged(t);
    AppendixNotesMatches();
    AppendixLineIsH2(t, 0);
  }

  lemma AppendixNotesMatches()
    ensures HeadingPatternMatches(HeadingPatternAt(AppendixPatterns, 0), Lower("Appendix A: Notes"))
  {
    var l := Lower("Appendix A: Notes");
    assert l[..8] == "appendix" by {
      assert l[0] == 'a' && l[1] == 'p' && l[2] == 'p' && l[3] == 'e';
      assert l[4] == 'n' && l[5] == 'd' && l[6] == 'i' && l[7] == 'x';
    }
    assert IsKeywordLetter(l, "appendix", true) by {
      assert l[8] == ' ' && l[9] == 'a';
      RunFromExact(l, 8, 1, IsSpace);
    }
  }

  /** "Summary:" is H3: a short line ending in a colon. */
  lemma ColonLineIsH3(t: String)
    requires t == "Summary:"
    ensures HeadingLevel(t) == H3
  {
    StripUnchanged(t);
    SummaryFacts(t);
    UnmarkedLine(t);
  }

  lemma SummaryFacts(t: String)
    requires t == "Summary:"
    ensures !AnyHeadingPattern(AppendixPatterns, Lower(t))
    ensures EndsWith(t, ":") && WordCount(t) == 1
  {
    NoAppendixKeywordStartsWithS(Lower(t));
    OneWord(t);
  }

  /** No appendix keyword starts with `s`. */
  lemma NoAppendixKeywordStartsWithS(l: String)
    requires |l| > 0 && l[0] == 's'
    ensures !AnyHeadingPattern(AppendixPatterns, l)
  {
    NoAppendixKeywordFrom(l, 0);
  }

  lemma {:induction false} NoAppendixKeywordFrom(l: String, k: nat)
    requires |l| > 0 && l[0] == 's'
    ensures !AnyHeadingPatternFrom(AppendixPatterns, k, l)
    decreases HeadingListSize(AppendixPatterns) - k
  {
    if k < HeadingListSize(AppendixPatterns) {
      NoAppendixKeywordFrom(l, k + 1);
      var pattern := HeadingPatternAt(AppendixPatterns, k);
      assert |pattern| == 1 && pattern[0].KeywordLetter?;
      assert |pattern[0].keyword| > 0 && pattern[0].keyword[0] != 's';
      assert !HeadingAtomMatches(pattern[0], l);
      assert pattern[1..] == [];
    }
  }
}
