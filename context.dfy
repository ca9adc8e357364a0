/** The context analyser: how many short lines surround a line on its page
    (adobe/main.py, `analyze_line_context`). */
module ContextAnalyzer {
  import opened Text

  /** The `context` dictionary; `{}` reads as a count of zero. */
  datatype LineContext = LineContext(shortLinesNearby: nat)

  const EmptyContext := LineContext(0)

  /** The number of neighbours counted on each side of the current line. */
  const Radius := 3

  /** A non-blank line of at most six words. */
  predicate IsShortLine(line: String) {
    Strip(line) != [] && WordCount(line) <= 6
  }

  /** `max(0, current - 3)`. */
  function WindowStart(current: nat): nat {
    if current >= Radius then current - Radius else 0
  }

  /** `min(len(lines), current + 4)`. */
  function WindowEnd(lines: seq<String>, current: nat): nat {
    Min(|lines|, current + Radius + 1)
  }

  /** Short lines with index in `[lo, hi)` other than `current`. */
  function CountShort(lines: seq<String>, current: nat, lo: nat, hi: nat): (n: nat)
    requires lo <= hi <= |lines|
    decreases hi - lo
  {
    if hi == lo then 0
    else CountShort(lines, current, lo, hi - 1) + (if hi - 1 != current && IsShortLine(lines[hi - 1]) then 1 else 0)
  }

  /** `analyze_line_context(lines, current)['short_lines_nearby']`. */
  function ShortLinesNearby(lines: seq<String>, current: nat): nat {
    var lo, hi := WindowStart(current), WindowEnd(lines, current);
    if lo < hi then CountShort(lines, current, lo, hi) else 0
  }

  /** The indices of short lines in `[lo, hi)` other than `current`, as a set. */
  function ShortNeighbours(lines: seq<String>, current: nat, lo: nat, hi: nat): set<nat>
  {
    set k: nat | k < |lines| && lo <= k < hi && k != current && IsShortLine(lines[k])
  }

  /** The count is the size of the set of short neighbours in the window. */
  lemma {:induction false} CountShortIsCardinality(lines: seq<String>, current: nat, lo: nat, hi: nat)
    requires lo <= hi <= |lines|
    ensures CountShort(lines, current, lo, hi) == |ShortNeighbours(lines, current, lo, hi)|
    decreases hi - lo
  {
    if hi > lo {
      CountShortIsCardinality(lines, current, lo, hi - 1);
      ShortNeighboursStep(lines, current, lo, hi);
      var before := ShortNeighbours(lines, current, lo, hi - 1);
      if hi - 1 != current && IsShortLine(lines[hi - 1]) {
        assert hi - 1 !in before;
        assert |before + {hi - 1}| == |before| + 1;
      } else {
        assert before + {} == before;
      }
    } else {
      assert ShortNeighbours(lines, current, lo, hi) == {} by {
        forall k: nat ensures k !in ShortNeighbours(lines, current, lo, hi) {
        }
      }
    }
  }

  /** Extending the window by one index adds that index when it is counted. */
  lemma ShortNeighboursStep(lines: seq<String>, current: nat, lo: nat, hi: nat)
    requires lo < hi <= |lines|
    ensures ShortNeighbours(lines, current, lo, hi) ==
      ShortNeighbours(lines, current, lo, hi - 1) + (if hi - 1 != current && IsShortLine(lines[hi - 1]) then {hi - 1} else {})
  {
    var after := ShortNeighbours(lines, current, lo, hi);
    var before := ShortNeighbours(lines, current, lo, hi - 1);
    var added: set<nat> := if hi - 1 != current && IsShortLine(lines[hi - 1]) then {hi - 1} else {};
    forall k: nat ensures k in after <==> k in before + added {
    }
  }

  /** `short_lines_nearby` counts exactly the non-blank lines of at most six words
      whose index lies in `[max(0, i - 3), min(n, i + 4))` and differs from `i`. */
  lemma ShortLinesNearbyIsWindowCount(lines: seq<String>, current: nat)
    ensures ShortLinesNearby(lines, current) ==
      |ShortNeighbours(lines, current, WindowStart(current), WindowEnd(lines, current))|
  {
    var lo, hi := WindowStart(current), WindowEnd(lines, current);
    if lo < hi {
      CountShortIsCardinality(lines, current, lo, hi);
    } else {
      assert ShortNeighbours(lines, current, lo, hi) == {};
    }
  }

  /** Each index of the window adds at most one, and the current index nothing. */
  lemma {:induction false} CountShortBound(lines: seq<String>, current: nat, lo: nat, hi: nat)
    requires lo <= hi <= |lines|
    ensures CountShort(lines, current, lo, hi) <= (hi - lo) - (if lo <= current < hi then 1 else 0)
    decreases hi - lo
  {
    if hi > lo {
      CountShortBound(lines, current, lo, hi - 1);
    }
  }

  /** At most three lines before and three after are counted: the count is at
      most 6. */
  lemma ShortLinesNearbyAtMostSix(lines: seq<String>, current: nat)
    ensures ShortLinesNearby(lines, current) <= 2 * Radius
  {
    var lo, hi := WindowStart(current), WindowEnd(lines, current);
    if lo < hi {
      CountShortBound(lines, current, lo, hi);
    }
  }

  /** The current line itself never contributes: replacing it changes nothing. */
  lemma {:induction false} CountShortIgnoresCurrent(lines: seq<String>, current: nat, lo: nat, hi: nat, other: String)
    requires lo <= hi <= |lines| && current < |lines|
    ensures CountShort(lines[current := other], current, lo, hi) == CountShort(lines, current, lo, hi)
    decreases hi - lo
  {
    if hi > lo {
      CountShortIgnoresCurrent(lines, current, lo, hi - 1, other);
    }
  }

  lemma ShortLinesNearbyIgnoresCurrent(lines: seq<String>, current: nat, other: String)
    requires current < |lines|
    ensures ShortLinesNearby(lines[current := other], current) == ShortLinesNearby(lines, current)
  {
    var lo, hi := WindowStart(current), WindowEnd(lines, current);
    if lo < hi {
      CountShortIgnoresCurrent(lines, current, lo, hi, other);
    }
  }

  /** `analyze_line_context`, with its loop over the window. */
  method AnalyzeLineContext(lines: seq<String>, currentIdx: nat) returns (context: LineContext)
    ensures context == LineContext(ShortLinesNearby(lines, currentIdx))
  {
    var shortLinesNearby := 0;
    var start := if currentIdx >= Radius then currentIdx - Radius else 0;
    var end := Min(|lines|, currentIdx + Radius + 1);
    if start < end {
      for i := start to end
        invariant shortLinesNearby == CountShort(lines, currentIdx, start, i)
      {
        if i != currentIdx && Strip(lines[i]) != [] {
          var words := WordCount(lines[i]);
          if words <= 6 {
            shortLinesNearby := shortLinesNearby + 1;
          }
        }
      }
    }
    context := LineContext(shortLinesNearby);
  }
}
