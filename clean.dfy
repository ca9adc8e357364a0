/** Heading text cleaning: a fixed pipeline of suffix removals, whitespace
    collapsing and Unicode compatibility normalisation
    (adobe/main.py, `clean_multilingual_heading`). */
module HeadingCleaner {
  import opened Text
  import opened Catalogs

  /** `[.。．]`: the full stops removed from the end of a heading. */
  predicate IsFinalStop(c: char) {
    c == '.' || c == '。' || c == '．'
  }

  /** `re.sub(r'[.\-_]{3,}$', '', s)`: a trailing run of three or more dots,
      dashes or underscores (dot leaders) is removed. */
  function TrimLeaders(s: String): (r: String)
    ensures |r| <= |s|
  {
    var n := TrailingRun(s, IsLeaderChar);
    if n >= 3 then s[..|s| - n] else s
  }

  /** `s` ends with whitespace followed by digits. */
  predicate HasTrailingNumber(s: String) {
    var d := TrailingRun(s, IsDigit);
    d > 0 && TrailingRun(s[..|s| - d], IsSpace) > 0
  }

  /** `re.sub(r'\s+\d+$', '', s)`: a trailing page number and the whitespace
      before it are removed. */
  function TrimPageNumber(s: String): (r: String)
    ensures |r| <= |s|
  {
    var d := TrailingRun(s, IsDigit);
    var w := TrailingRun(s[..|s| - d], IsSpace);
    if d > 0 && w > 0 then s[..|s| - d - w] else s
  }

  /** `re.sub(r'\s{2,}', ' ', s)`: every maximal whitespace run of two or more
      characters becomes one space; single whitespace characters stay. */
  function CollapseSpaces(s: String): (r: String)
    ensures |r| <= |s|
    decreases |s|
  {
    if s == [] then []
    else
      var w := RunFrom(s, 0, IsSpace);
      if w >= 2 then [' '] + CollapseSpaces(s[w..]) else [s[0]] + CollapseSpaces(s[1..])
  }

  /** `re.sub(r'[.。．]{1,2}$', '', s)`: at most two trailing full stops are removed. */
  function TrimFinalStops(s: String): (r: String)
    ensures |r| <= |s|
  {
    var n := TrailingRun(s, IsFinalStop);
    s[..|s| - Min(n, 2)]
  }

  /** NFKC on one character: fullwidth ASCII forms become ASCII, the
      compatibility spaces become a space, circled one to nine become digits. */
  function NfkcChar(c: char): char {
    if '\U{FF01}' <= c <= '\U{FF5E}' then (c as int - 0xFEE0) as char
    else if c == '\U{A0}' || ('\U{2000}' <= c <= '\U{200A}') || c == '\U{202F}' || c == '\U{205F}' || c == '\U{3000}' then ' '
    else if '\U{2460}' <= c <= '\U{2468}' then ('1' as int + (c as int - 0x2460)) as char
    else c
  }

  /** `unicodedata.normalize('NFKC', s)`, character by character. */
  function Nfkc(s: String): (r: String)
    ensures |r| == |s|
  {
    seq(|s|, i requires 0 <= i < |s| => NfkcChar(s[i]))
  }

  /** The rewrites between the two strips, in source order. */
  function CleanStages(s: String): (r: String)
    ensures |r| <= |s|
  {
    Nfkc(TrimFinalStops(CollapseSpaces(TrimPageNumber(TrimLeaders(s)))))
  }

  /** `clean_multilingual_heading(text)`: never longer than its input, and
      without leading or trailing whitespace. */
  function CleanHeading(text: String): (r: String)
    ensures |r| <= |text|
    ensures r == [] || (!IsSpace(r[0]) && !IsSpace(r[|r| - 1]))
  {
    var normalised := CleanStages(Strip(text));
    StripTrimmed(normalised);
    Strip(normalised)
  }

  /** Collapsing leaves a string without two adjacent whitespace characters unchanged. */
  lemma {:induction false} CollapseUnchanged(s: String)
    requires forall i :: 0 <= i < |s| - 1 ==> !(IsSpace(s[i]) && IsSpace(s[i + 1]))
    ensures CollapseSpaces(s) == s
    decreases |s|
  {
    if s != [] {
      assert RunFrom(s, 0, IsSpace) < 2 by {
        if |s| >= 2 && IsSpace(s[0]) {
          assert !IsSpace(s[1]);
        }
      }
      forall i | 0 <= i < |s[1..]| - 1
        ensures !(IsSpace(s[1..][i]) && IsSpace(s[1..][i + 1]))
      {
        assert s[1..][i] == s[i + 1] && s[1..][i + 1] == s[i + 2];
      }
      CollapseUnchanged(s[1..]);
    }
  }

  /** A stripped line with no whitespace run of two, no trailing dot leaders,
      page number or full stop, and no character NFKC changes, is its own
      cleaning. */
  lemma CleanUnchanged(s: String)
    requires Strip(s) == s
    requires forall i :: 0 <= i < |s| - 1 ==> !(IsSpace(s[i]) && IsSpace(s[i + 1]))
    requires TrailingRun(s, IsLeaderChar) < 3
    requires !HasTrailingNumber(s)
    requires s == [] || !IsFinalStop(s[|s| - 1])
    requires forall i :: 0 <= i < |s| ==> NfkcChar(s[i]) == s[i]
    ensures CleanHeading(s) == s
  {
    assert TrimLeaders(s) == s;
    assert TrimPageNumber(s) == s;
    LaterStagesUnchanged(s);
  }

  /** Collapsing, stop trimming and normalisation leave alone a string with no
      whitespace pair, no trailing stop and no character NFKC changes. */
  lemma LaterStagesUnchanged(s: String)
    requires forall i :: 0 <= i < |s| - 1 ==> !(IsSpace(s[i]) && IsSpace(s[i + 1]))
    requires s == [] || !IsFinalStop(s[|s| - 1])
    requires forall i :: 0 <= i < |s| ==> NfkcChar(s[i]) == s[i]
    ensures Nfkc(TrimFinalStops(CollapseSpaces(s))) == s
  {
    CollapseUnchanged(s);
    assert TrimFinalStops(s) == s by {
      assert TrailingRun(s, IsFinalStop) == 0;
    }
    assert Nfkc(s) == s;
  }

  /** Cleaning is not idempotent: dot leaders can hide a page number, and
      `Intro 3 ...` cleans to `Intro 3`, which cleans to `Intro`. */
  lemma CleaningNotIdempotent(heading: String)
    requires heading == "Intro 3 ..."
    ensures CleanHeading(CleanHeading(heading)) != CleanHeading(heading)
  {
    LeadersHidePageNumber(heading);
    PageNumberRemoved(CleanHeading(heading));
  }

  lemma LeadersHidePageNumber(heading: String)
    requires heading == "Intro 3 ..."
    ensures CleanHeading(heading) == "Intro 3"
  {
    StripUnchanged(heading);
    StagesOfLeaders(heading);
    TrailingSpaceStripped();
  }

  lemma StagesOfLeaders(heading: String)
    requires heading == "Intro 3 ..."
    ensures CleanStages(heading) == "Intro 3 "
  {
    LeadersRemoved();
    SpaceEndsNoPageNumber("Intro 3 ");
    LaterStagesUnchanged("Intro 3 ");
  }

  lemma SpaceEndsNoPageNumber(s: String)
    requires s == "Intro 3 "
    ensures TrimPageNumber(s) == s
  {
    assert TrailingRun(s, IsDigit) == 0;
  }

  lemma LeadersRemoved()
    ensures TrimLeaders("Intro 3 ...") == "Intro 3 "
  {
    assert TrailingRun("Intro 3 ...", IsLeaderChar) == 3 by {
      assert "Intro 3 ..."[..10] == "Intro 3 ..";
      assert "Intro 3 .."[..9] == "Intro 3 .";
      assert "Intro 3 ."[..8] == "Intro 3 ";
    }
  }

  lemma TrailingSpaceStripped()
    ensures Strip("Intro 3 ") == "Intro 3"
  {
    assert "Intro 3 "[..7] == "Intro 3";
  }

  lemma PageNumberRemoved(heading: String)
    requires heading == "Intro 3"
    ensures CleanHeading(heading) == "Intro"
  {
    StripUnchanged(heading);
    assert TrimLeaders("Intro 3") == "Intro 3";
    PageNumberTrimmed();
    LaterStagesUnchanged("Intro");
    assert CleanStages("Intro 3") == "Intro";
    StripUnchanged("Intro");
  }

  lemma PageNumberTrimmed()
    ensures TrimPageNumber("Intro 3") == "Intro"
  {
    var s := "Intro 3";
    assert s[..6] == "Intro ";
    assert TrailingRun(s, IsDigit) == 1 by {
      assert TrailingRun("Intro ", IsDigit) == 0;
    }
    assert "Intro "[..5] == "Intro";
    assert TrailingRun("Intro ", IsSpace) == 1 by {
      assert TrailingRun("Intro", IsSpace) == 0;
    }
    assert s[..5] == "Intro";
  }
}
