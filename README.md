# Multilingual PDF outline extraction, modelled in Dafny

This project models the heading-outline engine of `adobe/main.py`. The engine takes the text of
each page of a PDF and returns a title and an outline of headings. Each heading has a level from
H1 to H4, its text, its zero-based page and its script. The model covers these parts:

- **Script detection** (`script.dfy`, `detect_script_type`). Characters are counted per script.
  The script with the highest count wins. Ties go to the first in the order chinese, japanese,
  korean, devanagari, latin, cyrillic.
- **Line context** (`context.dfy`, `analyze_line_context`). This is the number of short
  neighbours of a line: non-blank lines of at most six words within three lines of it on the
  same page.
- **Rule catalogs** (`catalogs.dfy`, lines 13-92). The noise patterns, the heading patterns and
  the instruction words are kept as tables. Each regular expression is written as its list of
  alternatives, and each kind of alternative has a matcher.
- **Noise filter** (`noise.dfy`, `is_multilingual_noise`). A line is noise if it is repeated,
  if it is tiny, if the catalog lists it, if it sits in a dense context, or if it holds only
  digits and marks.
- **Heading candidacy** (`candidate.dfy`, `is_multilingual_heading_candidate`). Length caps
  that depend on the script come first, then the context cap, then nine positive signals.
- **Heading level** (`level.dfy`, `get_multilingual_heading_level`). The levels form a cascade
  where the first match wins: numbering depth first, then the CJK, Korean, Hindi, appendix,
  colon and CJK-marker rules.
- **Heading cleaning** (`clean.dfy`, `clean_multilingual_heading`). It removes dot leaders,
  trailing page numbers, runs of whitespace and final full stops, then normalises.
- **Title extraction** (`title.dfy`, `extract_multilingual_title`). The title is the first of
  the first ten lines of page one that meets the script-dependent bounds and is neither
  repeated nor noise.
- **Outline building** (`outline.dfy`, `extract_outline` from the page texts on). It splits
  pages into stripped lines and counts repeated lines. It takes the title and gives up on
  form-like documents. Then it walks every line of every page and keeps each cleaned heading
  text once, ignoring case.

The steps that work by iteration are methods with loops: the script counters, the context
window, the catalog searches, the title search, the line collection, the `Counter` and the
nested heading loop. Each method is proved equal to a specification function, and the
properties are proved about those functions.

Some consequences of the code show up in the proofs:

- A non-empty line with no counted character is classed as chinese, not latin
  (`UncountedTextIsChinese`). All counts tie at zero, and chinese comes first.
- Seven of the eight appendix heading signals never fire on a line that reaches them
  (`AppendixLinesAreNoise`). Their keyword is also a noise phrase, so the noise filter has
  already dropped the line. The Spanish `anexo` is the exception.
- Cleaning is not idempotent (`CleaningNotIdempotent`). "Intro 3 ..." cleans to "Intro 3",
  and that cleans to "Intro": the page-number rule runs before the dot-leader text is gone.
- The empty result and the form-like result carry no `document_script`
  (`EmptyDocument`, `SingleLineDocumentIsDegenerate`).

## Model

| member | source | states |
|---|---|---|
| ScriptDetector.DetectScriptType | adobe/main.py:94-122 | The counting loop returns the script the specification function assigns to the text. |
| ScriptDetector.ScriptOfIsFirstMaximal | adobe/main.py:96-122 | The empty text is latin. Otherwise the chosen script's count is at least every script's count, and every script earlier in the tie order has a strictly smaller count. |
| ScriptDetector.FirstMaximalIsUnique | adobe/main.py:99-122 | Only one script can satisfy that first-maximal condition, so it fully decides the result. |
| ScriptDetector.FirstMaxIndex | adobe/main.py:122 | `max` over the dictionary in order returns a position whose count is maximal, with every earlier count strictly smaller. |
| ScriptDetector.UncountedTextIsChinese | adobe/main.py:99-122 | A non-empty text in which no character is counted is classed as chinese. |
| ScriptDetector.AllOneScript | adobe/main.py:108-120 | A text whose characters all belong to one script counts every character for it. |
| ScriptDetector.CountsDisjoint | adobe/main.py:108-120 | A character is counted for at most one script: two counts never add up to more than the length. |
| ScriptDetector.EmptyTextIsLatin | adobe/main.py:96-97 | The empty text is latin. |
| ScriptDetector.ChapterOverviewIsChinese | adobe/main.py:109-110 | "第一章概述" is chinese. |
| ScriptDetector.HindiChapterIsDevanagari | adobe/main.py:115-116 | "अध्याय १" is devanagari. |
| ContextAnalyzer.AnalyzeLineContext | adobe/main.py:404-418 | The window loop returns the short-neighbour count. |
| ContextAnalyzer.ShortLinesNearbyIsWindowCount | adobe/main.py:408-416 | The count is the number of indices in `[max(0,i-3), min(n,i+4))`, other than `i`, whose line is non-blank and has at most six words. |
| ContextAnalyzer.CountShortIsCardinality | adobe/main.py:411-415 | The loop's running count equals the size of the set of short neighbours seen so far. |
| ContextAnalyzer.ShortLinesNearbyAtMostSix | adobe/main.py:408-409 | The count is at most six. |
| ContextAnalyzer.ShortLinesNearbyIgnoresCurrent | adobe/main.py:412 | Replacing the current line never changes its own count. |
| NoiseFilter.IsMultilingualNoise | adobe/main.py:124-150 | The cascade returns exactly the disjunction of its five noise conditions. |
| NoiseFilter.SearchCatalog | adobe/main.py:137-140 | The nested loop over tables and patterns finds a match exactly when some catalog pattern matches. |
| NoiseFilter.SearchPatterns | adobe/main.py:138-140 | The inner loop finds a match exactly when some pattern of the table does. |
| NoiseFilter.RepeatedIsNoise | adobe/main.py:129-130 | A line whose stripped text is in the repeated set is noise. |
| NoiseFilter.ShortIsNoise | adobe/main.py:126-134 | A line whose stripped form is shorter than two characters is noise. |
| NoiseFilter.DenseContextIsNoise | adobe/main.py:143-144 | A line with four or more short neighbours is noise. |
| NoiseFilter.PhraseMakesNoise | adobe/main.py:13-55 | A line whose lower-cased, stripped text contains any literal phrase of the catalog is noise. |
| NoiseFilter.AppendixLinesAreNoise | adobe/main.py:25 | A stripped line matching any appendix pattern except `anexo` is noise. |
| NoiseFilter.AppendixNoiseTable | adobe/main.py:29 | Each appendix keyword except `anexo` is the third phrase of the second pattern of some noise table. |
| HeadingCandidate.IsMultilingualHeadingCandidate | adobe/main.py:152-236 | The candidacy cascade returns exactly the caps-then-signals predicate. |
| HeadingCandidate.HasPositiveSignal | adobe/main.py:176-234 | The nine signals, tried in the code's order, give exactly their disjunction. |
| HeadingCandidate.HasPatternSignal | adobe/main.py:176-198 | The numbered-section, appendix and all-caps signals hold exactly when their predicate does. |
| HeadingCandidate.HasShapeSignal | adobe/main.py:200-234 | The title-case, upper-ratio, colon, CJK, Korean and Devanagari signals hold exactly when their predicate does. |
| HeadingCandidate.SearchHeadingPatterns | adobe/main.py:177-184 | The loop over a heading pattern list matches exactly when some pattern matches. |
| HeadingCandidate.SearchInstructionWords | adobe/main.py:189-193 | The loop over the instruction tables reports an instruction exactly when some word of some table occurs in the lowered line. |
| HeadingCandidate.CapsReject | adobe/main.py:159-172 | Too many words for the script (more than 20 for CJ, else 15), too many characters (more than 50, else 120), or four or more short neighbours each reject the line. |
| HeadingCandidate.DecimalNumberedIsCandidate | adobe/main.py:177-179 | Within the caps and the context limit, a line starting with decimal numbering then whitespace is a candidate. |
| HeadingCandidate.DecimalNumberedLower | adobe/main.py:178 | Whether a line starts with decimal numbering does not change under lower-casing, so `re.IGNORECASE` is irrelevant for it. |
| HeadingCleaner.CleanHeading | adobe/main.py:289-304 | The cleaned text is no longer than the input and has no whitespace at either end. |
| HeadingCleaner.CleanUnchanged | adobe/main.py:291-304 | A text already stripped, with single spaces, no dot leaders, no trailing number, no final stop and no character NFKC changes, is its own clean form. |
| HeadingCleaner.CleaningNotIdempotent | adobe/main.py:294-295 | Cleaning "Intro 3 ..." and cleaning its result give different texts, so cleaning is not idempotent. |
| HeadingCleaner.LeadersHidePageNumber | adobe/main.py:294-295 | "Intro 3 ..." cleans to "Intro 3": the number rule ran before the leaders were removed. |
| HeadingCleaner.PageNumberRemoved | adobe/main.py:295 | "Intro 3" cleans to "Intro". |
| HeadingLevels.HeadingLevel | adobe/main.py:238-287 | The level is H4 exactly when the stripped text starts with numbering of four or more groups. |
| HeadingLevels.LevelOfSectionNumber | adobe/main.py:244-251 | A line of `n` numeric groups joined by dots, then an optional dot and a spaced title, has level H1, H2, H3 or H4 for `n` = 1, 2, 3, or 4 and more. |
| HeadingLevels.NumberedLevel | adobe/main.py:244-251 | Depth two or more, or depth one followed by an optional dot and whitespace, decides the level by depth alone. |
| HeadingLevels.DotGroupsCounted | adobe/main.py:244-248 | The `(\.\d+)` groups after a number are counted exactly. |
| HeadingLevels.UnmarkedLine | adobe/main.py:253-287 | For a line that starts with no digit and none of 第, अ, ख, भ, only the appendix, colon and CJK-marker rules are left. |
| HeadingLevels.AppendixLineIsH2 | adobe/main.py:271-274 | Such a line matching an appendix pattern is H2. |
| HeadingLevels.FourPartNumberIsH4 | adobe/main.py:244-245 | "1.2.3.4 Details" is H4. |
| HeadingLevels.TwoPartNumberIsH2 | adobe/main.py:248-249 | "1.2 Overview" is H2. |
| HeadingLevels.NumberWithDotIsH1 | adobe/main.py:250-251 | "1. Introduction" is H1. |
| HeadingLevels.AppendixIsH2 | adobe/main.py:271-274 | "Appendix A: Notes" is H2. |
| HeadingLevels.ColonLineIsH3 | adobe/main.py:276-278 | "Summary:" is H3. |
| HeadingLevels.NoAppendixKeywordStartsWithS | adobe/main.py:70-79 | No appendix pattern matches a lowered line that starts with `s`. |
| TitleExtractor.ExtractMultilingualTitle | adobe/main.py:306-323 | The search returns the title the specification function assigns. |
| TitleExtractor.FindTitleLine | adobe/main.py:308-322 | The loop stops at the first of the first ten lines that qualifies, or at none. |
| TitleExtractor.QualifiesAsTitleCheck | adobe/main.py:309-321 | A line qualifies exactly when it is within the script's length and word bounds, not repeated, and not noise in an empty context. |
| TitleExtractor.TitleOf | adobe/main.py:306-323 | The title is shorter than 100 characters and has no whitespace at either end. |
| TitleExtractor.FirstQualifyingLineIsTitle | adobe/main.py:308-322 | If line `i` is the first qualifying one among the first ten, the title is its cleaned text. |
| TitleExtractor.NoQualifyingLineNoTitle | adobe/main.py:323 | If none of the first ten lines qualifies, the title is empty. |
| TitleExtractor.ShortLinesGiveNoTitle | adobe/main.py:313-318 | A first page of lines of at most three characters has an empty title. |
| TitleExtractor.FirstTrueFrom | adobe/main.py:308-323 | The search returns the first flagged position, or none when no position is flagged. |
| OutlineBuilder.ExtractOutline | adobe/main.py:331-403 | From the page texts, the method returns the outline the specification function assigns. |
| OutlineBuilder.OutlineOfLines | adobe/main.py:338-403 | Once the lines are collected, the rest of the method returns that outline. |
| OutlineBuilder.CollectLines | adobe/main.py:331-336 | Each page becomes its stripped non-blank lines, and `all_lines` is their concatenation. |
| OutlineBuilder.CountLines | adobe/main.py:349 | `Counter` maps exactly the lines that occur to their number of occurrences. |
| OutlineBuilder.FindRepeatedLines | adobe/main.py:349-352 | The repeated set holds the lines occurring at least `max(2, pages // 3)` times. |
| OutlineBuilder.ScanDocument | adobe/main.py:364-397 | The nested loop builds the outline the page-by-page specification gives. |
| OutlineBuilder.ScanPage | adobe/main.py:365-397 | The inner loop records the offers of one page in order. |
| OutlineBuilder.ScanLine | adobe/main.py:366-397 | One line is appended when it is non-blank, not noise and a candidate, and its cleaned text is non-empty, differs from the title and is unseen, ignoring case. |
| OutlineBuilder.SplitLinesJoin | adobe/main.py:334 | Joining the pieces of `split('\n')` with newlines gives the page text back. |
| OutlineBuilder.SplitLinesHaveNoNewline | adobe/main.py:334 | No piece of `split('\n')` holds a newline. |
| OutlineBuilder.KeptLines | adobe/main.py:334 | Every kept line is non-empty and stripped. |
| OutlineBuilder.EmptyDocument | adobe/main.py:338-339 | A document without lines has an empty title, an empty outline and no document script. |
| OutlineBuilder.SingleLineDocumentIsDegenerate | adobe/main.py:358-361 | Four to forty-nine copies of one line form a form-like document: title kept, no headings, no document script. |
| OutlineBuilder.OutlineSearched | adobe/main.py:358-403 | A non-empty document that is not form-like gets the searched outline and the script of its first fifty lines. |
| OutlineBuilder.OutlineWellFormed | adobe/main.py:367-397 | Every heading has a non-empty text that differs from the title, ignoring case, and a page of the document. No two texts are equal ignoring case, and pages never decrease. |
| OutlineBuilder.OutlineSound | adobe/main.py:366-397 | Every heading is the entry of an offered line of its page. Its level is that text's level and its script is that text's script. |
| OutlineBuilder.OutlineComplete | adobe/main.py:366-397 | In a searched document, the cleaned text of every offered line is in the outline, ignoring case. |
| OutlineBuilder.RecordWellFormed | adobe/main.py:383-397 | Appending an unseen entry of the current page keeps `seen` equal to the lowered texts, and keeps texts distinct and pages ordered. |
| OutlineBuilder.RecordAllExtends | adobe/main.py:365-397 | The loop only appends offered entries, and afterwards every offered text is seen. |
| OutlineBuilder.RepeatedLineNeverOffered | adobe/main.py:349-374 | A line whose stripped text occurs at least `max(2, pages // 3)` times is never offered. |
| OutlineBuilder.RunningLineNeverOffered | adobe/main.py:349-374 | A line on every page of a document of two or more pages, such as a running header, is never offered. |
| OutlineBuilder.OnEveryPageCount | adobe/main.py:336-349 | A line present on every page occurs at least once per page in `all_lines`. |
| Catalogs.NoiseTableAt | adobe/main.py:13-55 | The nine noise tables in declaration order: universal, english, hindi, chinese, japanese, korean, spanish, french, german. Each pattern is the sequence of its alternatives, word for word. |
| Catalogs.HasPhraseNumber | adobe/main.py:16 | The phrase occurs somewhere and is followed by a digit, after any whitespace when the pattern has `\s*`. |
| Catalogs.HasLeaderRun | adobe/main.py:19 | Some run of `n` or more dots, dashes or underscores occurs in the text. |
| Catalogs.IsTimePrefix | adobe/main.py:20 | The text starts with one or two digits, a colon and two digits. Three digits before the colon do not match. |
| Catalogs.IsDatePrefix | adobe/main.py:20 | The text starts with one or two digits, a slash, one or two digits, a slash and at least two digits. |
| Catalogs.IsOnlyPunctuation | adobe/main.py:21 | No character of the text is a word character or whitespace. The empty text qualifies. |
| Catalogs.NoiseCatalogMatches | adobe/main.py:137-140 | Some pattern of some table of the noise catalog matches the text. |
| Catalogs.HeadingPatternAt | adobe/main.py:58-80 | The nine numbered-section patterns and the eight appendix patterns, in declaration order and with their alternatives. |
| Catalogs.IsDecimalNumbered | adobe/main.py:60 | The text starts with digits, any number of `.digits` groups read greedily, an optional dot and whitespace. |
| Catalogs.IsMarkedNumber | adobe/main.py:61-64 | The text starts with the prefix, one or more digits and then the marker character, such as 第3章 or 2절. |
| Catalogs.IsKeywordNumber | adobe/main.py:65-68 | The text starts with the keyword, any whitespace and a digit. |
| Catalogs.IsKeywordLetter | adobe/main.py:71-78 | The text starts with the keyword, whitespace (at least one character where the pattern has `\s+`) and a letter from a to z. |
| Catalogs.InstructionWords | adobe/main.py:83-92 | The eight instruction-word tables in declaration order, word for word. |
| Catalogs.AnyWordIn | adobe/main.py:191 | Some word of the list, lower-cased, occurs in the lowered line. |
| NoiseFilter.IsNoise | adobe/main.py:124-150 | A line is noise when its stripped text is repeated, its lowered and stripped text is shorter than two characters or matches the catalog, it has four or more short neighbours, or its stripped text is numbers and marks only. |
| NoiseFilter.IsNumbersAndMarks | adobe/main.py:147 | The text is non-empty and made only of digits, whitespace and the characters `-_.()`. |
| HeadingCandidate.MaxChars | adobe/main.py:159-164 | A line may have 50 characters in chinese or japanese and 120 otherwise. |
| HeadingCandidate.MaxWords | adobe/main.py:159-164 | A line may have 20 words in chinese or japanese and 15 otherwise. |
| HeadingCandidate.IsCandidate | adobe/main.py:152-236 | A line is a candidate when it is within the word and character caps of its script, has fewer than four short neighbours, and shows one of the nine positive signals. |
| HeadingCandidate.AllCapsSignal | adobe/main.py:187-198 | Signal 3: the line is all caps, has two to eight words, holds no instruction word and is not an address. |
| HeadingCandidate.IsAllUpper | adobe/main.py:187 | The text has an upper-case letter and no lower-case letter. |
| HeadingCandidate.IsAddress | adobe/main.py:197 | The line is a street address or a place followed by a two-letter code, case-sensitively. |
| HeadingCandidate.IsStreetAddress | adobe/main.py:197 | The line is digits, whitespace, and then only ASCII capitals and whitespace to its end. |
| HeadingCandidate.IsPlaceAndCode | adobe/main.py:197 | The line starts with ASCII capitals and whitespace, a comma, any whitespace and two ASCII capitals. |
| HeadingCandidate.IsTitleCase | adobe/main.py:201 | The text has a cased letter. An upper-case letter never follows a cased one, and a lower-case letter always does. |
| HeadingCandidate.UpperCount | adobe/main.py:207 | The number of upper-case characters, at most the length of the text. |
| HeadingCandidate.HighUpperRatio | adobe/main.py:207-208 | The upper-case count is at least six tenths of `max(1, len)` and less than it. |
| HeadingCandidate.CjkSignal | adobe/main.py:216-222 | Signal 7: a CJK numeral followed by `、`, a circled number one to ten, or at most 30 characters not ending in `。`. |
| HeadingCandidate.HasNumeralComma | adobe/main.py:218 | One of 一 to 十 is immediately followed by `、` somewhere in the line. |
| HeadingCandidate.HasCircledNumber | adobe/main.py:218 | One of ① to ⑩ occurs in the line. |
| HeadingCandidate.HasKoreanMarker | adobe/main.py:227 | One of the fourteen Hangul syllables 가 to 하 is immediately followed by a dot somewhere in the line. |
| HeadingCandidate.HasDevanagariMarker | adobe/main.py:233 | The line contains a Devanagari digit, अध्याय, भाग or खंड. |
| HeadingCleaner.TrimLeaders | adobe/main.py:294 | A trailing run of three or more dots, dashes or underscores is removed. Any other text is left as it is. |
| HeadingCleaner.TrimPageNumber | adobe/main.py:295 | Trailing digits preceded by whitespace are removed with all of that whitespace. Any other text is left as it is. |
| HeadingCleaner.CollapseSpaces | adobe/main.py:296 | Every maximal whitespace run of two or more characters becomes one space. Single whitespace characters stay. |
| HeadingCleaner.TrimFinalStops | adobe/main.py:299 | The last one or two of the trailing full stops `.`, `。` or `．` are removed. |
| HeadingCleaner.NfkcChar | adobe/main.py:302 | Fullwidth ASCII becomes ASCII, the no-break and ideographic spaces become a space, and ① to ⑨ become the digits 1 to 9. |
| HeadingCleaner.Nfkc | adobe/main.py:302 | Normalisation maps each character on its own and keeps the length. |
| ScriptDetector.ClassifyChar | adobe/main.py:108-120 | The first matching block of the if/elif chain decides the counter: CJK ideographs, kana, Hangul, Devanagari, Cyrillic, then latin for any other letter. Other characters count for no script. |
| ScriptDetector.ScriptOf | adobe/main.py:94-122 | The empty text is latin. Otherwise the result is the first script, in dictionary order, with the maximal count. |
| ContextAnalyzer.IsShortLine | adobe/main.py:413-415 | A neighbour is short when it is non-blank and has at most six words. |
| ContextAnalyzer.WindowStart | adobe/main.py:409 | The window starts three lines before the current line, or at the first line. |
| ContextAnalyzer.WindowEnd | adobe/main.py:410 | The window ends just before the fourth line after the current one, or at the end of the page. |
| ContextAnalyzer.ShortLinesNearby | adobe/main.py:404-418 | The number of short lines in the window, other than the current line. An empty window counts zero. |
| HeadingLevels.NumberingDepth | adobe/main.py:244-250 | The number of numeric groups of a leading `1.2.3` numbering, read greedily, or zero without a leading digit. |
| HeadingLevels.DepthLevel | adobe/main.py:244-251 | Four or more groups give H4, three give H3, two give H2 and one gives H1. |
| TitleExtractor.WithinTitleBounds | adobe/main.py:313-320 | A chinese or japanese line must be longer than 3 and shorter than 80 characters with at most 25 words. Any other line must be longer than 5 and shorter than 100 characters with at most 15 words. |
| TitleExtractor.QualifiesAsTitle | adobe/main.py:318-321 | A stripped line qualifies when it is within the bounds, not repeated, and not noise in an empty context. |
| OutlineBuilder.SplitLines | adobe/main.py:334 | The pieces of the page text between newlines, empty pieces included. There is always at least one piece. |
| OutlineBuilder.PrimaryScript | adobe/main.py:345 | The script of the first fifty lines joined by single spaces. |
| OutlineBuilder.RepeatedThreshold | adobe/main.py:350 | The larger of 2 and the page count divided by 3, rounded down. |
| OutlineBuilder.RepeatedLines | adobe/main.py:349-352 | The lines occurring in `all_lines` at least the threshold number of times. |
| OutlineBuilder.IsDegenerate | adobe/main.py:358-359 | Fewer than three distinct lines per ten lines, in a document of fewer than fifty lines. |
| OutlineBuilder.DegenerateDocumentHasNoOutline | adobe/main.py:357-360 | A non-empty form-like document keeps its title and gets no headings and no document script. |
| OutlineBuilder.Admitted | adobe/main.py:368-379 | A line is admitted when it is non-blank, not noise and a heading candidate in the context of its page. |
| OutlineBuilder.Offered | adobe/main.py:380-384 | An admitted line is offered when its cleaned text is non-empty and differs from the title, ignoring case. |
| OutlineBuilder.Entry | adobe/main.py:387-394 | The entry has the level of the cleaned text, the text, the zero-based page and the script of the text. |
| OutlineBuilder.Offer | adobe/main.py:366-394 | A line offers the entry of its cleaned text when it is offered, and nothing otherwise. |
| OutlineBuilder.Record | adobe/main.py:383-396 | An offered entry whose lowered text is unseen is appended and its lowered text marked seen. Anything else leaves the outline and the seen set unchanged. |
| OutlineBuilder.OutlineOf | adobe/main.py:338-402 | A document without lines has an empty title and outline. A form-like one keeps its title and has no headings. Any other one gets the headings of the page-by-page scan and the script of its first fifty lines. |

## Left out

- PDF reading (`pdfplumber`, lines 327-333) is left out. The model starts from the text of each page, which `page.extract_text() or ""` would give.
- The `__main__`-style driver over an input directory (lines 8-10, 421-445), file I/O and JSON output are left out. Only the returned dictionary is modelled, as the `Outline` datatype.
- `doc_stats['avg_line_length']` and `doc_stats['total_lines']` are left out, because nothing reads them. `is_multilingual_heading_candidate` never reads its `doc_stats` parameter, so the model does not take one.
- The dictionaries are modelled as datatypes. Each `{"level", "text", "page", "script_type"}` entry is a `HeadingEntry`. `document_script` is an `Option`, absent for the empty and the form-like returns.
- Python's Unicode tables are approximated:
  - `str.lower`, `isupper` and `istitle` know ASCII letters, the Latin-1 letters and basic Cyrillic letters. ª, µ and º count as lower case, and `lower` leaves them in place.
  - `isalpha` knows those letters plus the CJK, kana, Hangul, Devanagari and Cyrillic blocks.
  - `\d` covers ASCII, Devanagari and fullwidth digits.
  - Letters outside these ranges are treated as uncased, non-alphabetic characters.
  - `\w` is modelled by `Text.IsWordChar`: the letters above, the digits above, the circled numbers ① to ⑳ and `_`. Python's `\w` also takes other characters, such as ² and ¼. The model counts these as punctuation, so a line such as "²³" matches `^[^\w\s]*$` in the model but not in Python.
- Nfkc: NFKC normalisation is modelled character by character, with three kinds of mapping:
  - fullwidth ASCII becomes ASCII;
  - the no-break and ideographic spaces become a space;
  - circled digits one to nine become digits.

  Multi-character decompositions (for example ⑩, ™ and the ligatures) leave the text unchanged, so the model keeps the length fixed. Every other compatibility character is also left unchanged, for example µ (NFKC gives μ), ª (a), ² (2) and the halfwidth katakana. No canonical composition is done, so a letter followed by a combining mark stays two characters.
- `re.IGNORECASE` is modelled as matching the lower-cased line. This ignores the few Unicode case-folding pairs where the two differ.
- `$` in a pattern is modelled as the end of the line. After `split('\n')` a line never contains a newline, so `$` cannot match before a trailing `\n`.
- The float division behind `unique_ratio < 0.3` is modelled as `10 * distinct < 3 * total`. The upper-case ratio test is modelled by integer cross-multiplication. Over the integers both are exact.
- OutlineSound: when several offered lines clean to texts equal ignoring case, it does not state that the kept entry comes from the first of them. It states only that the kept entry comes from an offered line. Together with OutlineWellFormed and OutlineComplete this gives distinctness, soundness and completeness, but not which occurrence survives.
