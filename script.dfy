/** The script detector: counts characters by code-point block and returns the
    block with the highest count (adobe/main.py, `detect_script_type`). */
module ScriptDetector {
  import opened Text

  datatype Script = Chinese | Japanese | Korean | Devanagari | Latin | Cyrillic

  /** The insertion order of the counters dictionary; `max` keeps the first of
      several equal counts, so this is also the tie-break order. */
  const ScriptOrder: seq<Script> := [Chinese, Japanese, Korean, Devanagari, Latin, Cyrillic]

  /** Position of a script in `ScriptOrder`. */
  function Rank(s: Script): (r: nat)
    ensures r < |ScriptOrder| && ScriptOrder[r] == s
  {
    match s
    case Chinese => 0
    case Japanese => 1
    case Korean => 2
    case Devanagari => 3
    case Latin => 4
    case Cyrillic => 5
  }

  /** The counter a character increments, if any: the first matching block of the
      if/elif chain, and `latin` for any other letter. */
  function ClassifyChar(c: char): Option<Script> {
    if '\U{4E00}' <= c <= '\U{9FFF}' then Some(Chinese)
    else if ('\U{3040}' <= c <= '\U{309F}') || ('\U{30A0}' <= c <= '\U{30FF}') then Some(Japanese)
    else if '\U{AC00}' <= c <= '\U{D7AF}' then Some(Korean)
    else if '\U{900}' <= c <= '\U{97F}' then Some(Devanagari)
    else if '\U{400}' <= c <= '\U{4FF}' then Some(Cyrillic)
    else if IsAlpha(c) then Some(Latin)
    else None
  }

  /** How many characters of `text` increment the counter of `script`. */
  function Count(text: String, script: Script): (n: nat)
    ensures n <= |text|
  {
    if text == [] then 0
    else Count(text[..|text| - 1], script) + (if ClassifyChar(text[|text| - 1]) == Some(script) then 1 else 0)
  }

  /** The counters dictionary after scanning `text`. */
  function Counts(text: String): (m: map<Script, nat>)
    ensures forall s :: s in m && m[s] == Count(text, s)
  {
    forall s ensures s in ScriptOrder {
      assert ScriptOrder[Rank(s)] == s;
    }
    map s | s in ScriptOrder :: Count(text, s)
  }

  /** What `max(order, key=counts.get)` returns, as an index into `order`: the
      first position whose count is not exceeded by any other. */
  function FirstMaxIndex(order: seq<Script>, counts: map<Script, nat>): (k: nat)
    requires |order| > 0
    requires forall s :: s in counts
    ensures k < |order|
    ensures forall i :: 0 <= i < |order| ==> counts[order[i]] <= counts[order[k]]
    ensures forall i :: 0 <= i < k ==> counts[order[i]] < counts[order[k]]
  {
    if |order| == 1 then 0
    else
      var best := FirstMaxIndex(order[..|order| - 1], counts);
      if counts[order[|order| - 1]] > counts[order[best]] then |order| - 1 else best
  }

  /** `detect_script_type(text)`. */
  function ScriptOf(text: String): Script {
    if text == [] then Latin else ScriptOrder[FirstMaxIndex(ScriptOrder, Counts(text))]
  }

  /** The script of a non-empty text has a maximal count, and every script that
      comes before it in the tie-break order has a strictly smaller count; the
      empty text is `latin`. */
  lemma ScriptOfIsFirstMaximal(text: String)
    ensures text == [] ==> ScriptOf(text) == Latin
    ensures text != [] ==> forall s :: Count(text, s) <= Count(text, ScriptOf(text))
    ensures text != [] ==> forall s :: Rank(s) < Rank(ScriptOf(text)) ==> Count(text, s) < Count(text, ScriptOf(text))
  {
    if text != [] {
      var m := Counts(text);
      var k := FirstMaxIndex(ScriptOrder, m);
      assert ScriptOrder[k] == ScriptOf(text);
      assert Rank(ScriptOf(text)) == k;
      forall s ensures Count(text, s) <= Count(text, ScriptOf(text)) {
        assert ScriptOrder[Rank(s)] == s;
      }
      forall s | Rank(s) < Rank(ScriptOf(text)) ensures Count(text, s) < Count(text, ScriptOf(text)) {
        assert ScriptOrder[Rank(s)] == s;
      }
    }
  }

  /** Scripts are determined by these two properties: at most one script has a
      maximal count with every earlier script strictly below it. */
  lemma FirstMaximalIsUnique(text: String, a: Script, b: Script)
    requires forall s :: Count(text, s) <= Count(text, a)
    requires forall s :: Rank(s) < Rank(a) ==> Count(text, s) < Count(text, a)
    requires forall s :: Count(text, s) <= Count(text, b)
    requires forall s :: Rank(s) < Rank(b) ==> Count(text, s) < Count(text, b)
    ensures a == b
  {
    assert ScriptOrder[Rank(a)] == a && ScriptOrder[Rank(b)] == b;
  }

  /** A non-empty text none of whose characters is counted (digits, punctuation)
      has all counters at zero, so the first key wins: `chinese`. */
  lemma {:induction false} UncountedTextIsChinese(text: String)
    requires text != []
    requires forall i :: 0 <= i < |text| ==> ClassifyChar(text[i]) == None
    ensures ScriptOf(text) == Chinese
  {
    forall s ensures Count(text, s) == 0 {
      NothingCounted(text, s);
    }
    var counts := Counts(text);
    var k := FirstMaxIndex(ScriptOrder, counts);
    assert counts[ScriptOrder[0]] == 0 && counts[ScriptOrder[k]] == 0;
    assert k == 0;
  }

  lemma {:induction false} NothingCounted(text: String, s: Script)
    requires forall i :: 0 <= i < |text| ==> ClassifyChar(text[i]) == None
    ensures Count(text, s) == 0
  {
    if text != [] {
      NothingCounted(text[..|text| - 1], s);
    }
  }

  /** `detect_script_type` with its counting loop over the characters. */
  method DetectScriptType(text: String) returns (script: Script)
    ensures script == ScriptOf(text)
  {
    if |text| == 0 {
      return Latin;
    }
    var scripts: map<Script, nat> := map[Chinese := 0, Japanese := 0, Korean := 0, Devanagari := 0, Latin := 0, Cyrillic := 0];
    assert text[..0] == [];
    forall s ensures s in scripts && scripts[s] == 0 {
      match s
      case Chinese =>
      case Japanese =>
      case Korean =>
      case Devanagari =>
      case Latin =>
      case Cyrillic =>
    }
    for i := 0 to |text|
      invariant forall s :: s in scripts && scripts[s] == Count(text[..i], s)
    {
      assert text[..i + 1][..i] == text[..i];
      match ClassifyChar(text[i])
      case Some(s) => scripts := scripts[s := scripts[s] + 1];
      case None =>
    }
    assert text[..|text|] == text;
    assert scripts == Counts(text);
    script := ScriptOrder[FirstMaxIndex(ScriptOrder, scripts)];
  }

  // Examples: an empty text, and texts of one script each.

  lemma EmptyTextIsLatin()
    ensures ScriptOf("") == Latin
  {
  }

  lemma ChapterOverviewIsChinese()
    ensures ScriptOf("第一章概述") == Chinese
  {
    var t := "第一章概述";
    assert forall i :: 0 <= i < |t| ==> ClassifyChar(t[i]) == Some(Chinese);
    AllOneScript(t, Chinese);
    ScriptOfIsFirstMaximal(t);
    assert Count(t, ScriptOf(t)) == |t|;
  }

  lemma HindiChapterIsDevanagari()
    ensures ScriptOf("अध्याय १") == Devanagari
  {
    var t := "अध्याय १";
    var u := "अध्याय";
    assert t == u + " १";
    assert forall i :: 0 <= i < |u| ==> ClassifyChar(u[i]) == Some(Devanagari);
    AllOneScript(u, Devanagari);
    assert t[..|t| - 1] == u + " ";
    assert (u + " ")[..|u|] == u;
    assert Count(t, Devanagari) == |t| - 1;
    ScriptOfIsFirstMaximal(t);
    if ScriptOf(t) != Devanagari {
      assert Count(t, ScriptOf(t)) + Count(t, Devanagari) <= |t| by {
        CountsDisjoint(t, ScriptOf(t), Devanagari);
      }
    }
  }

  lemma {:induction false} AllOneScript(text: String, s: Script)
    requires forall i :: 0 <= i < |text| ==> ClassifyChar(text[i]) == Some(s)
    ensures Count(text, s) == |text|
  {
    if text != [] {
      AllOneScript(text[..|text| - 1], s);
    }
  }

  /** Each character increments at most one counter. */
  lemma {:induction false} CountsDisjoint(text: String, a: Script, b: Script)
    requires a != b
    ensures Count(text, a) + Count(text, b) <= |text|
  {
    if text != [] {
      CountsDisjoint(text[..|text| - 1], a, b);
    }
  }
}
