/** The outline builder: collects the lines of every page, finds running
    headers and footers by their number of occurrences, extracts the title,
    gives up on form-like documents, and then walks every line of every
    page, keeping the cleaned text of each heading candidate once
    (adobe/main.py, `extract_outline`). */
module OutlineBuilder {
  import opened Text
  import opened ScriptDetector
  import opened ContextAnalyzer
  import opened NoiseFilter
  import opened HeadingCandidate
  import opened HeadingCleaner
  import opened HeadingLevels
  import opened TitleExtractor

  /** One `{"level", "text", "page", "script_type"}` entry of the outline. */
  datatype HeadingEntry = HeadingEntry(level: Level, text: String, page: nat, scriptType: Script)

  /** The returned dictionary; `document_script` is present only when the
      headings were searched. */
  datatype Outline = Outline(title: String, outline: seq<HeadingEntry>, documentScript: Option<Script>)

  // ---------------------------------------------------------------------------
  // Page lines
  // ---------------------------------------------------------------------------

  /** `text.split('\n')`: the pieces between newlines, empty ones included. */
  function SplitLines(text: String): (parts: seq<String>)
    ensures |parts| >= 1
    decreases |text|
  {
    if text == [] then [[]]
    else
      var init := SplitLines(text[..|text| - 1]);
      var c := text[|text| - 1];
      if c == '\n' then init + [[]]
      else init[..|init| - 1] + [init[|init| - 1] + [c]]
  }

  /** No piece holds a newline. */
  lemma {:induction false} SplitLinesHaveNoNewline(text: String)
    ensures forall k :: 0 <= k < |SplitLines(text)| ==> '\n' !in SplitLines(text)[k]
    decreases |text|
  {
    if text != [] {
      var prefix := text[..|text| - 1];
      var c := text[|text| - 1];
      var init := SplitLines(prefix);
      SplitLinesHaveNoNewline(prefix);
      var parts := SplitLines(text);
      if c != '\n' {
        var n := |init|;
        forall k | 0 <= k < |parts| ensures '\n' !in parts[k] {
          if k < n - 1 {
            assert parts[k] == init[k];
          } else {
            assert parts[k] == init[n - 1] + [c];
          }
        }
      }
    }
  }

  /** Joining the pieces with newlines gives the text back. */
  lemma {:induction false} SplitLinesJoin(text: String)
    ensures Join(SplitLines(text), "\n") == text
    decreases |text|
  {
    if text != [] {
      var prefix := text[..|text| - 1];
      var c := text[|text| - 1];
      SplitLinesJoin(prefix);
      assert text == prefix + [c];
      if c == '\n' {
        JoinSnoc(SplitLines(prefix), [], "\n");
      } else {
        JoinExtendLast(SplitLines(prefix), c, "\n");
      }
    }
  }

  /** The stripped form of each piece, in order, with the pieces that strip to nothing dropped. */
  function KeptLines(parts: seq<String>): (lines: seq<String>)
    ensures forall k :: 0 <= k < |lines| ==> lines[k] != [] && Strip(lines[k]) == lines[k]
    ensures |lines| <= |parts|
  {
    if parts == [] then []
    else
      var line := Strip(parts[|parts| - 1]);
      StripIdempotent(parts[|parts| - 1]);
      KeptLines(parts[..|parts| - 1]) + (if line != [] then [line] else [])
  }

  /** The stripped, non-blank lines of the text of one page. */
  function PageLines(text: String): seq<String> {
    KeptLines(SplitLines(text))
  }

  /** The lines of every page of a document, from the text of each page. */
  function PagesOf(pageTexts: seq<String>): (pages: seq<seq<String>>)
    ensures |pages| == |pageTexts|
  {
    seq(|pageTexts|, p requires 0 <= p < |pageTexts| => PageLines(pageTexts[p]))
  }

  // ---------------------------------------------------------------------------
  // Document statistics
  // ---------------------------------------------------------------------------

  /** `all_lines`: the lines of every page, in page order. */
  function Flatten(pages: seq<seq<String>>): seq<String> {
    if pages == [] then [] else Flatten(pages[..|pages| - 1]) + pages[|pages| - 1]
  }

  /** The document has no line exactly when no page has one. */
  lemma {:induction false} FlattenEmpty(pages: seq<seq<String>>)
    ensures Flatten(pages) == [] <==> forall p :: 0 <= p < |pages| ==> pages[p] == []
  {
    if pages != [] {
      var init := pages[..|pages| - 1];
      FlattenEmpty(init);
      assert forall p :: 0 <= p < |init| ==> init[p] == pages[p];
    }
  }

  /** `max(2, len(pdf.pages) // 3)`. */
  function RepeatedThreshold(pageCount: nat): nat {
    Max(2, pageCount / 3)
  }

  /** The lines occurring at least `threshold` times. */
  function RepeatedLines(allLines: seq<String>, threshold: nat): set<String> {
    set line | line in allLines && multiset(allLines)[line] >= threshold
  }

  /** `len(set(all_lines))`. */
  function DistinctCount(allLines: seq<String>): nat {
    |set line | line in allLines|
  }

  /** `unique_ratio < 0.3 and len(all_lines) < 50`, cross-multiplied. */
  predicate IsDegenerate(allLines: seq<String>) {
    10 * DistinctCount(allLines) < 3 * |allLines| && |allLines| < 50
  }

  /** The script of the first fifty lines joined by spaces. */
  function PrimaryScript(allLines: seq<String>): Script {
    ScriptOf(Join(allLines[..Min(50, |allLines|)], " "))
  }

  // ---------------------------------------------------------------------------
  // The heading loop
  // ---------------------------------------------------------------------------

  /** What the heading loop accumulates: the outline and the lower-cased texts seen. */
  datatype Scan = Scan(outline: seq<HeadingEntry>, seen: set<String>)

  /** Line `j` of a page is non-blank, not noise and a heading candidate, in
      the context of its page. */
  predicate Admitted(lines: seq<String>, j: nat, repeatedLines: set<String>)
    requires j < |lines|
  {
    var context := LineContext(ShortLinesNearby(lines, j));
    Strip(lines[j]) != [] && !IsNoise(lines[j], repeatedLines, context) && IsCandidate(lines[j], context)
  }

  /** Line `j` is admitted and its cleaned text is non-empty and differs from
      the title, ignoring case. */
  predicate Offered(lines: seq<String>, j: nat, repeatedLines: set<String>, title: String)
    requires j < |lines|
  {
    var cleanText := CleanHeading(lines[j]);
    Admitted(lines, j, repeatedLines) && cleanText != [] && Lower(cleanText) != Lower(title)
  }

  /** The entry recorded for a cleaned heading text on a page. */
  function Entry(cleanText: String, page: nat): HeadingEntry {
    HeadingEntry(HeadingLevel(cleanText), cleanText, page, ScriptOf(cleanText))
  }

  /** What line `j` of page `page` offers to the outline: the entry of its
      cleaned text when the line is offered. */
  function Offer(lines: seq<String>, j: nat, page: nat, repeatedLines: set<String>, title: String): Option<HeadingEntry>
    requires j < |lines|
  {
    if Offered(lines, j, repeatedLines, title) then Some(Entry(CleanHeading(lines[j]), page)) else None
  }

  /** The offers of every line of a page, in order. */
  function Offers(lines: seq<String>, page: nat, repeatedLines: set<String>, title: String): (offers: seq<Option<HeadingEntry>>)
    ensures |offers| == |lines|
  {
    seq(|lines|, j requires 0 <= j < |lines| => Offer(lines, j, page, repeatedLines, title))
  }

  /** One iteration of the inner loop: an offered entry whose text has not
      been seen, ignoring case, is appended and its lowered text recorded. */
  function Record(acc: Scan, offer: Option<HeadingEntry>): Scan {
    if offer.Some? && Lower(offer.value.text) !in acc.seen then
      Scan(acc.outline + [offer.value], acc.seen + {Lower(offer.value.text)})
    else acc
  }

  /** The inner loop over a sequence of offers. */
  function RecordAll(acc: Scan, offers: seq<Option<HeadingEntry>>): Scan
    decreases |offers|
  {
    if offers == [] then acc else Record(RecordAll(acc, offers[..|offers| - 1]), offers[|offers| - 1])
  }

  /** The offers of every page, in order. */
  function PageOffers(pages: seq<seq<String>>, repeatedLines: set<String>, title: String): (offers: seq<seq<Option<HeadingEntry>>>)
    ensures |offers| == |pages|
  {
    seq(|pages|, q requires 0 <= q < |pages| => Offers(pages[q], q, repeatedLines, title))
  }

  /** The outer loop over the offers of the first `p` pages. */
  function ScanPages(offers: seq<seq<Option<HeadingEntry>>>, p: nat): Scan
    requires p <= |offers|
    decreases p
  {
    if p == 0 then Scan([], {}) else RecordAll(ScanPages(offers, p - 1), offers[p - 1])
  }

  /** The repeated lines of a document. */
  function DocumentRepeatedLines(pages: seq<seq<String>>): set<String> {
    RepeatedLines(Flatten(pages), RepeatedThreshold(|pages|))
  }

  /** The title of a document. */
  function DocumentTitle(pages: seq<seq<String>>): String {
    TitleOf(if |pages| > 0 then pages[0] else [], DocumentRepeatedLines(pages))
  }

  /** `extract_outline`, from the pages of stripped lines on. */
  function OutlineOf(pages: seq<seq<String>>): Outline {
    var allLines := Flatten(pages);
    if allLines == [] then Outline("", [], None)
    else if IsDegenerate(allLines) then Outline(DocumentTitle(pages), [], None)
    else
      var title := DocumentTitle(pages);
      var offers := PageOffers(pages, DocumentRepeatedLines(pages), title);
      Outline(title, ScanPages(offers, |pages|).outline, Some(PrimaryScript(allLines)))
  }

  // ---------------------------------------------------------------------------
  // The imperative orchestration
  // ---------------------------------------------------------------------------

  /** `extract_outline`, from the extracted text of each page on, with its
      loops over pages and lines. */
  method ExtractOutline(pageTexts: seq<String>) returns (result: Outline)
    ensures result == OutlineOf(PagesOf(pageTexts))
  {
    var pages, allLines := CollectLines(pageTexts);
    result := OutlineOfLines(pages, allLines);
  }

  /** The rest of `extract_outline`, once the lines are collected. */
  method OutlineOfLines(pages: seq<seq<String>>, allLines: seq<String>) returns (result: Outline)
    requires allLines == Flatten(pages)
    ensures result == OutlineOf(pages)
  {
    if |allLines| == 0 {
      return Outline("", [], None);
    }
    var primaryScript := DetectScriptType(Join(allLines[..Min(50, |allLines|)], " "));
    var repeatedLines := FindRepeatedLines(allLines, |pages|);
    var title := ExtractMultilingualTitle(if |pages| > 0 then pages[0] else [], repeatedLines);
    assert title == DocumentTitle(pages);
    var uniqueLines := |set line | line in allLines|;
    if 10 * uniqueLines < 3 * |allLines| && |allLines| < 50 {
      return Outline(title, [], None);
    }
    var outline := ScanDocument(pages, repeatedLines, title);
    return Outline(title, outline, Some(primaryScript));
  }

  /** The heading loop over every page, starting from an empty outline and
      an empty set of seen texts. */
  method ScanDocument(pages: seq<seq<String>>, repeatedLines: set<String>, title: String)
    returns (outline: seq<HeadingEntry>)
    ensures outline == ScanPages(PageOffers(pages, repeatedLines, title), |pages|).outline
  {
    ghost var offers := PageOffers(pages, repeatedLines, title);
    outline := [];
    var seen := {};
    for p := 0 to |pages|
      invariant Scan(outline, seen) == ScanPages(offers, p)
    {
      outline, seen := ScanPage(pages[p], p, repeatedLines, title, outline, seen);
      assert offers[p] == Offers(pages[p], p, repeatedLines, title);
    }
  }

  /** The collection loop: the stripped non-blank lines of every page, and
      all of them in order. */
  method CollectLines(pageTexts: seq<String>) returns (pages: seq<seq<String>>, allLines: seq<String>)
    ensures pages == PagesOf(pageTexts)
    ensures allLines == Flatten(pages)
  {
    pages, allLines := [], [];
    for p := 0 to |pageTexts|
      invariant |pages| == p
      invariant forall q :: 0 <= q < p ==> pages[q] == PageLines(pageTexts[q])
      invariant allLines == Flatten(pages)
    {
      var lines := PageLines(pageTexts[p]);
      ghost var before := pages;
      pages := pages + [lines];
      assert pages[..p] == before;
      allLines := allLines + lines;
    }
  }

  /** `Counter(all_lines)`, then the lines counted at least `max(2, pages // 3)` times. */
  method FindRepeatedLines(allLines: seq<String>, pageCount: nat) returns (repeatedLines: set<String>)
    ensures repeatedLines == RepeatedLines(allLines, RepeatedThreshold(pageCount))
  {
    var lineCounts := CountLines(allLines);
    var repeatedThreshold := Max(2, pageCount / 3);
    repeatedLines := set line | line in lineCounts && lineCounts[line] >= repeatedThreshold;
    assert repeatedLines == RepeatedLines(allLines, RepeatedThreshold(pageCount)) by {
      forall line ensures line in repeatedLines <==> line in RepeatedLines(allLines, RepeatedThreshold(pageCount)) {
      }
    }
  }

  /** `Counter(lines)`: every line maps to its number of occurrences. */
  method CountLines(lines: seq<String>) returns (counts: map<String, nat>)
    ensures forall line :: line in counts <==> line in lines
    ensures forall line :: line in counts ==> counts[line] == multiset(lines)[line]
  {
    counts := map[];
    for i := 0 to |lines|
      invariant forall line :: line in counts <==> line in lines[..i]
      invariant forall line :: line in counts ==> counts[line] == multiset(lines[..i])[line]
    {
      var line := lines[i];
      assert lines[..i + 1] == lines[..i] + [line];
      var count := if line in counts then counts[line] else 0;
      counts := counts[line := count + 1];
    }
    assert lines[..|lines|] == lines;
  }

  /** The inner loop over the lines of one page. */
  method ScanPage(lines: seq<String>, page: nat, repeatedLines: set<String>, title: String,
                  outline0: seq<HeadingEntry>, seen0: set<String>)
    returns (outline: seq<HeadingEntry>, seen: set<String>)
    ensures Scan(outline, seen) == RecordAll(Scan(outline0, seen0), Offers(lines, page, repeatedLines, title))
  {
    ghost var offers := Offers(lines, page, repeatedLines, title);
    outline, seen := outline0, seen0;
    for j := 0 to |lines|
      invariant Scan(outline, seen) == RecordAll(Scan(outline0, seen0), offers[..j])
    {
      ghost var before := Scan(outline, seen);
      outline, seen := ScanLine(lines, j, page, repeatedLines, title, outline, seen);
      assert offers[..j + 1][..j] == offers[..j];
      assert Scan(outline, seen) == Record(before, offers[j]);
    }
    assert offers[..|lines|] == offers;
  }

  /** The body of the inner loop for line `j`. */
  method ScanLine(lines: seq<String>, j: nat, page: nat, repeatedLines: set<String>, title: String,
                  outline0: seq<HeadingEntry>, seen0: set<String>)
    returns (outline: seq<HeadingEntry>, seen: set<String>)
    requires j < |lines|
    ensures Scan(outline, seen) == Record(Scan(outline0, seen0), Offer(lines, j, page, repeatedLines, title))
  {
    outline, seen := outline0, seen0;
    var line := lines[j];
    if Strip(line) == [] {
      return;
    }
    var context := AnalyzeLineContext(lines, j);
    var noise := IsMultilingualNoise(line, repeatedLines, context);
    if noise {
      return;
    }
    var candidate := IsMultilingualHeadingCandidate(line, context);
    if !candidate {
      return;
    }
    assert Admitted(lines, j, repeatedLines);
    var cleanText := CleanHeading(line);
    if cleanText != [] && Lower(cleanText) != Lower(title) && Lower(cleanText) !in seen {
      var level := HeadingLevel(cleanText);
      var scriptType := DetectScriptType(cleanText);
      outline := outline + [HeadingEntry(level, cleanText, page, scriptType)];
      seen := seen + {Lower(cleanText)};
    }
  }

  // ---------------------------------------------------------------------------
  // Properties of the outline
  // ---------------------------------------------------------------------------

  /** A document without any line gets an empty title, an empty outline and
      no document script. */
  lemma EmptyDocument(pages: seq<seq<String>>)
    requires forall p :: 0 <= p < |pages| ==> pages[p] == []
    ensures OutlineOf(pages) == Outline("", [], None)
  {
    FlattenEmpty(pages);
  }

  /** A document of four to forty-nine copies of one line is form-like: it
      keeps its title but gets no headings and no document script. */
  lemma SingleLineDocumentIsDegenerate(pages: seq<seq<String>>)
    requires 4 <= |Flatten(pages)| < 50
    requires forall i :: 0 <= i < |Flatten(pages)| ==> Flatten(pages)[i] == Flatten(pages)[0]
    ensures OutlineOf(pages) == Outline(DocumentTitle(pages), [], None)
  {
    var allLines := Flatten(pages);
    assert (set line | line in allLines) == {allLines[0]};
    assert DistinctCount(allLines) == 1;
  }

  /** The lower-cased texts of an outline. */
  function LoweredTexts(outline: seq<HeadingEntry>): set<String> {
    set i | 0 <= i < |outline| :: Lower(outline[i].text)
  }

  /** An entry offered on page `page` has a non-empty text other than the
      title, ignoring case, and that page. */
  predicate OfferFits(entry: HeadingEntry, title: String, page: nat) {
    entry.text != [] && Lower(entry.text) != Lower(title) && entry.page == page
  }

  /** An entry of the outline after the first `pageCount` pages has a
      non-empty text other than the title, ignoring case, and one of
      those pages. */
  predicate EntryFits(entry: HeadingEntry, title: String, pageCount: nat) {
    entry.text != [] && Lower(entry.text) != Lower(title) && entry.page < pageCount
  }

  /** The invariant of the heading loop after the first `pageCount` pages:
      `seen` holds exactly the lower-cased texts, every entry fits, no two
      texts are equal ignoring case, and pages never decrease. */
  predicate WellFormed(acc: Scan, title: String, pageCount: nat) {
    && acc.seen == LoweredTexts(acc.outline)
    && (forall i :: 0 <= i < |acc.outline| ==> EntryFits(acc.outline[i], title, pageCount))
    && (forall i, j :: 0 <= i < j < |acc.outline| ==> Lower(acc.outline[i].text) != Lower(acc.outline[j].text))
    && (forall i, j :: 0 <= i < j < |acc.outline| ==> acc.outline[i].page <= acc.outline[j].page)
  }

  /** Recording an offer of the current page keeps the invariant. */
  lemma RecordWellFormed(acc: Scan, offer: Option<HeadingEntry>, title: String, page: nat)
    requires WellFormed(acc, title, page + 1)
    requires offer.Some? ==> OfferFits(offer.value, title, page)
    ensures WellFormed(Record(acc, offer), title, page + 1)
  {
    if offer.Some? && Lower(offer.value.text) !in acc.seen {
      var key := Lower(offer.value.text);
      var outline := acc.outline + [offer.value];
      assert LoweredTexts(outline) == acc.seen + {key} by {
        forall t ensures t in LoweredTexts(outline) <==> t in acc.seen + {key} {
          if t in LoweredTexts(outline) {
            var i :| 0 <= i < |outline| && Lower(outline[i].text) == t;
            if i < |acc.outline| {
              assert Lower(acc.outline[i].text) in LoweredTexts(acc.outline);
            }
          }
          if t in acc.seen {
            var i :| 0 <= i < |acc.outline| && Lower(acc.outline[i].text) == t;
            assert outline[i] == acc.outline[i];
          }
          if t == key {
            assert Lower(outline[|acc.outline|].text) == t;
          }
        }
      }
      forall i | 0 <= i < |acc.outline|
        ensures Lower(acc.outline[i].text) != key
      {
        assert Lower(acc.outline[i].text) in LoweredTexts(acc.outline);
      }
    }
  }

  /** Recording the offers of one page keeps the invariant. */
  lemma {:induction false} RecordAllWellFormed(acc: Scan, offers: seq<Option<HeadingEntry>>, title: String, page: nat)
    requires WellFormed(acc, title, page + 1)
    requires forall j :: 0 <= j < |offers| && offers[j].Some? ==> OfferFits(offers[j].value, title, page)
    ensures WellFormed(RecordAll(acc, offers), title, page + 1)
    decreases |offers|
  {
    if offers != [] {
      var init := offers[..|offers| - 1];
      assert forall j :: 0 <= j < |init| ==> init[j] == offers[j];
      RecordAllWellFormed(acc, init, title, page);
      RecordWellFormed(RecordAll(acc, init), offers[|offers| - 1], title, page);
    }
  }

  /** Every offer of every page fits its page. */
  predicate AllOffersFit(offers: seq<seq<Option<HeadingEntry>>>, title: String) {
    forall q, j :: 0 <= q < |offers| && 0 <= j < |offers[q]| && offers[q][j].Some? ==> OfferFits(offers[q][j].value, title, q)
  }

  lemma {:induction false} ScanPagesWellFormed(offers: seq<seq<Option<HeadingEntry>>>, p: nat, title: String)
    requires p <= |offers| && AllOffersFit(offers, title)
    ensures WellFormed(ScanPages(offers, p), title, p)
    decreases p
  {
    if p > 0 {
      ScanPagesWellFormed(offers, p - 1, title);
      var acc := ScanPages(offers, p - 1);
      assert forall i :: 0 <= i < |acc.outline| ==> EntryFits(acc.outline[i], title, p - 1);
      var page := offers[p - 1];
      assert forall j :: 0 <= j < |page| && page[j].Some? ==> OfferFits(page[j].value, title, p - 1);
      RecordAllWellFormed(acc, page, title, p - 1);
    }
  }

  /** Every offer of a line has the line's page and a non-empty cleaned text
      other than the title, ignoring case. */
  lemma OfferFitsPage(lines: seq<String>, j: nat, page: nat, repeatedLines: set<String>, title: String)
    requires j < |lines| && Offer(lines, j, page, repeatedLines, title).Some?
    ensures OfferFits(Offer(lines, j, page, repeatedLines, title).value, title, page)
  {
  }

  lemma PageOffersFit(pages: seq<seq<String>>, repeatedLines: set<String>, title: String)
    ensures AllOffersFit(PageOffers(pages, repeatedLines, title), title)
  {
    var offers: seq<seq<Option<HeadingEntry>>> := PageOffers(pages, repeatedLines, title);
    forall q: nat, j: nat | q < |offers| && j < |offers[q]| && offers[q][j].Some?
      ensures OfferFits(offers[q][j].value, title, q)
    {
      assert offers[q][j] == Offer(pages[q], j, q, repeatedLines, title);
      OfferFitsPage(pages[q], j, q, repeatedLines, title);
    }
  }

  /** Every heading of the outline has a non-empty text differing from the
      title, ignoring case, and a page of the document; no two texts are
      equal ignoring case; pages never decrease. */
  lemma OutlineWellFormed(pages: seq<seq<String>>)
    ensures var r := OutlineOf(pages);
      && (forall i :: 0 <= i < |r.outline| ==> EntryFits(r.outline[i], r.title, |pages|))
      && (forall i, j :: 0 <= i < j < |r.outline| ==> Lower(r.outline[i].text) != Lower(r.outline[j].text))
      && (forall i, j :: 0 <= i < j < |r.outline| ==> r.outline[i].page <= r.outline[j].page)
  {
    var title := DocumentTitle(pages);
    var offers := PageOffers(pages, DocumentRepeatedLines(pages), title);
    OutlineParts(pages);
    PageOffersFit(pages, DocumentRepeatedLines(pages), title);
    ScanPagesWellFormed(offers, |pages|, title);
  }

  /** The outline is empty, or it is the one the heading loop builds under
      the document's title. */
  lemma OutlineParts(pages: seq<seq<String>>)
    ensures var r := OutlineOf(pages);
      || r.outline == []
      || (var title := DocumentTitle(pages);
          r.title == title && r.outline == ScanPages(PageOffers(pages, DocumentRepeatedLines(pages), title), |pages|).outline)
  {
    if Flatten(pages) != [] && !IsDegenerate(Flatten(pages)) {
      OutlineSearched(pages);
    }
  }

  // ---------------------------------------------------------------------------
  // Soundness and completeness of the heading loop
  // ---------------------------------------------------------------------------

  /** Recording offers keeps the outline built so far as a prefix, adds only
      offered entries, and ends with every offered text seen. */
  lemma {:induction false} RecordAllExtends(acc: Scan, offers: seq<Option<HeadingEntry>>)
    ensures var r := RecordAll(acc, offers);
      && |acc.outline| <= |r.outline| && r.outline[..|acc.outline|] == acc.outline
      && (forall i :: |acc.outline| <= i < |r.outline| ==> Some(r.outline[i]) in offers)
      && acc.seen <= r.seen
      && (forall j :: 0 <= j < |offers| && offers[j].Some? ==> Lower(offers[j].value.text) in r.seen)
    decreases |offers|
  {
    if offers != [] {
      var init := offers[..|offers| - 1];
      var last := offers[|offers| - 1];
      RecordAllExtends(acc, init);
      var before := RecordAll(acc, init);
      var r := Record(before, last);
      assert r.outline[..|before.outline|] == before.outline;
      assert r.outline[..|acc.outline|] == before.outline[..|acc.outline|];
      forall i | |acc.outline| <= i < |r.outline|
        ensures Some(r.outline[i]) in offers
      {
        if i < |before.outline| {
          assert r.outline[i] == before.outline[i];
          assert Some(before.outline[i]) in init;
        }
      }
      forall j | 0 <= j < |offers| && offers[j].Some?
        ensures Lower(offers[j].value.text) in r.seen
      {
        if j < |init| {
          assert init[j] == offers[j];
        }
      }
    }
  }

  /** `entry` was offered by one of the first `p` pages. */
  predicate OfferedBefore(offers: seq<seq<Option<HeadingEntry>>>, p: nat, entry: HeadingEntry)
    requires p <= |offers|
  {
    exists q :: 0 <= q < p && Some(entry) in offers[q]
  }

  /** Every entry after `p` pages was offered by one of those pages. */
  lemma {:induction false} ScanPagesSound(offers: seq<seq<Option<HeadingEntry>>>, p: nat)
    requires p <= |offers|
    ensures forall i :: 0 <= i < |ScanPages(offers, p).outline| ==> OfferedBefore(offers, p, ScanPages(offers, p).outline[i])
    decreases p
  {
    if p > 0 {
      ScanPagesSound(offers, p - 1);
      var before := ScanPages(offers, p - 1);
      RecordAllExtends(before, offers[p - 1]);
      var r := ScanPages(offers, p);
      forall i | 0 <= i < |r.outline|
        ensures OfferedBefore(offers, p, r.outline[i])
      {
        if i < |before.outline| {
          assert r.outline[i] == before.outline[i] by {
            assert r.outline[i] == r.outline[..|before.outline|][i];
          }
          assert OfferedBefore(offers, p - 1, before.outline[i]);
        } else {
          assert Some(r.outline[i]) in offers[p - 1];
        }
      }
    }
  }

  /** Every text offered by the first `p` pages is seen after them. */
  lemma {:induction false} ScanPagesComplete(offers: seq<seq<Option<HeadingEntry>>>, p: nat)
    requires p <= |offers|
    ensures var r := ScanPages(offers, p);
      forall q, j :: 0 <= q < p && 0 <= j < |offers[q]| && offers[q][j].Some? ==> Lower(offers[q][j].value.text) in r.seen
    decreases p
  {
    if p > 0 {
      ScanPagesComplete(offers, p - 1);
      RecordAllExtends(ScanPages(offers, p - 1), offers[p - 1]);
    }
  }

  /** An offer is the entry of an offered line. */
  lemma OfferIsEntry(lines: seq<String>, j: nat, page: nat, repeatedLines: set<String>, title: String, entry: HeadingEntry)
    requires j < |lines| && Offer(lines, j, page, repeatedLines, title) == Some(entry)
    ensures Offered(lines, j, repeatedLines, title) && entry == Entry(CleanHeading(lines[j]), page)
  {
  }

  /** A non-empty document that is not form-like is searched for headings and
      carries its primary script. */
  lemma OutlineSearched(pages: seq<seq<String>>)
    requires Flatten(pages) != [] && !IsDegenerate(Flatten(pages))
    ensures var title := DocumentTitle(pages);
      OutlineOf(pages) == Outline(title, ScanPages(PageOffers(pages, DocumentRepeatedLines(pages), title), |pages|).outline,
                                  Some(PrimaryScript(Flatten(pages))))
  {
  }

  /** A non-empty form-like document keeps its title and gets no headings and no document script. */
  lemma DegenerateDocumentHasNoOutline(pages: seq<seq<String>>)
    requires Flatten(pages) != [] && IsDegenerate(Flatten(pages))
    ensures OutlineOf(pages) == Outline(DocumentTitle(pages), [], None)
  {
  }

  /** `entry` is the entry of the cleaned text of an offered line of page `q`. */
  predicate FromOfferedLine(pages: seq<seq<String>>, repeatedLines: set<String>, title: String, entry: HeadingEntry) {
    exists q, j :: (0 <= q < |pages| && 0 <= j < |pages[q]|
      && Offered(pages[q], j, repeatedLines, title)
      && entry == Entry(CleanHeading(pages[q][j]), q))
  }

  /** An entry offered by some page is the entry of an offered line of that page. */
  lemma OfferedFromLine(pages: seq<seq<String>>, repeatedLines: set<String>, title: String, entry: HeadingEntry)
    requires OfferedBefore(PageOffers(pages, repeatedLines, title), |pages|, entry)
    ensures FromOfferedLine(pages, repeatedLines, title, entry)
  {
    var offers := PageOffers(pages, repeatedLines, title);
    var q :| 0 <= q < |pages| && Some(entry) in offers[q];
    var j :| 0 <= j < |offers[q]| && offers[q][j] == Some(entry);
    assert offers[q] == Offers(pages[q], q, repeatedLines, title);
    assert offers[q][j] == Offer(pages[q], j, q, repeatedLines, title);
    OfferIsEntry(pages[q], j, q, repeatedLines, title, entry);
  }

  /** Every heading of the outline is the entry of the cleaned text of an
      offered line of its page: a non-blank line that is not noise, is a
      heading candidate and cleans to a text other than the title. */
  lemma OutlineSound(pages: seq<seq<String>>)
    ensures forall i :: 0 <= i < |OutlineOf(pages).outline| ==>
      FromOfferedLine(pages, DocumentRepeatedLines(pages), OutlineOf(pages).title, OutlineOf(pages).outline[i])
  {
    var r := OutlineOf(pages);
    var repeatedLines := DocumentRepeatedLines(pages);
    var title := DocumentTitle(pages);
    var offers := PageOffers(pages, repeatedLines, title);
    OutlineParts(pages);
    if r.outline != [] {
      ScanPagesSound(offers, |pages|);
      forall i | 0 <= i < |r.outline|
        ensures FromOfferedLine(pages, repeatedLines, title, r.outline[i])
      {
        OfferedFromLine(pages, repeatedLines, title, r.outline[i]);
      }
    }
  }

  /** The cleaned text of an offered line is seen once every page is scanned. */
  lemma OfferedLineSeen(pages: seq<seq<String>>, repeatedLines: set<String>, title: String, q: nat, j: nat)
    requires q < |pages| && j < |pages[q]| && Offered(pages[q], j, repeatedLines, title)
    ensures Lower(CleanHeading(pages[q][j])) in ScanPages(PageOffers(pages, repeatedLines, title), |pages|).seen
  {
    var offers := PageOffers(pages, repeatedLines, title);
    ScanPagesComplete(offers, |pages|);
    assert offers[q] == Offers(pages[q], q, repeatedLines, title);
    assert offers[q][j] == Offer(pages[q], j, q, repeatedLines, title);
  }

  /** In a searched document, the text of every offered line is in the
      outline, ignoring case. */
  lemma OutlineComplete(pages: seq<seq<String>>)
    requires Flatten(pages) != [] && !IsDegenerate(Flatten(pages))
    ensures forall q, j :: 0 <= q < |pages| && 0 <= j < |pages[q]| && Offered(pages[q], j, DocumentRepeatedLines(pages), OutlineOf(pages).title) ==>
      Lower(CleanHeading(pages[q][j])) in LoweredTexts(OutlineOf(pages).outline)
  {
    var r := OutlineOf(pages);
    var repeatedLines := DocumentRepeatedLines(pages);
    var title := DocumentTitle(pages);
    var offers := PageOffers(pages, repeatedLines, title);
    OutlineSearched(pages);
    PageOffersFit(pages, repeatedLines, title);
    ScanPagesWellFormed(offers, |pages|, title);
    forall q, j | 0 <= q < |pages| && 0 <= j < |pages[q]| && Offered(pages[q], j, repeatedLines, title)
      ensures Lower(CleanHeading(pages[q][j])) in LoweredTexts(r.outline)
    {
      OfferedLineSeen(pages, repeatedLines, title, q, j);
    }
  }

  // ---------------------------------------------------------------------------
  // Running headers and footers
  // ---------------------------------------------------------------------------

  /** A line present on every page occurs at least once per page. */
  lemma {:induction false} OnEveryPageCount(pages: seq<seq<String>>, line: String)
    requires forall q :: 0 <= q < |pages| ==> line in pages[q]
    ensures multiset(Flatten(pages))[line] >= |pages|
  {
    if pages != [] {
      var init := pages[..|pages| - 1];
      assert forall q :: 0 <= q < |init| ==> init[q] == pages[q];
      OnEveryPageCount(init, line);
      assert line in pages[|pages| - 1];
      assert multiset(Flatten(pages)) == multiset(Flatten(init)) + multiset(pages[|pages| - 1]);
    }
  }

  /** A line whose stripped text occurs at least `max(2, pages // 3)` times is
      never offered as a heading. */
  lemma RepeatedLineNeverOffered(pages: seq<seq<String>>, q: nat, j: nat, title: String)
    requires q < |pages| && j < |pages[q]|
    requires multiset(Flatten(pages))[Strip(pages[q][j])] >= RepeatedThreshold(|pages|)
    ensures !Offered(pages[q], j, DocumentRepeatedLines(pages), title)
  {
    var repeatedLines := DocumentRepeatedLines(pages);
    assert Strip(pages[q][j]) in repeatedLines;
    RepeatedIsNoise(pages[q][j], repeatedLines, LineContext(ShortLinesNearby(pages[q], j)));
  }

  /** A running header or footer, a line on every page of a document of two
      or more pages, is never offered as a heading. */
  lemma RunningLineNeverOffered(pages: seq<seq<String>>, line: String, title: String)
    requires |pages| >= 2 && forall q :: 0 <= q < |pages| ==> line in pages[q]
    ensures forall q, j :: 0 <= q < |pages| && 0 <= j < |pages[q]| && Strip(pages[q][j]) == line ==>
      !Offered(pages[q], j, DocumentRepeatedLines(pages), title)
  {
    OnEveryPageCount(pages, line);
    forall q, j | 0 <= q < |pages| && 0 <= j < |pages[q]| && Strip(pages[q][j]) == line
      ensures !Offered(pages[q], j, DocumentRepeatedLines(pages), title)
    {
      RepeatedLineNeverOffered(pages, q, j, title);
    }
  }
}
