/** The pruned search for the longest contiguous run of lines that parses. */
module Parseable {
  import opened Text

  /** Lines `i` up to `j`, joined again. */
  function Chunk(lines: seq<string>, i: nat, j: nat): string
    requires i <= j <= |lines|
  {
    Text.Join(lines[i..j], '\n')
  }

  /** `best` is a parseable run of lines with the most characters of all parseable runs, or empty when none has any. */
  ghost predicate IsLargest(text: string, parses: string -> bool, best: string) {
    var lines := Text.Split(text, '\n');
    && (best == "" || exists i, j :: 0 <= i < j <= |lines| && best == Chunk(lines, i, j) && parses(best))
    && forall i, j :: 0 <= i < j <= |lines| && parses(Chunk(lines, i, j)) ==> |Chunk(lines, i, j)| <= |best|
  }

  predicate Blank(text: string) {
    forall i :: 0 <= i < |text| ==> IsSpace(text[i])
  }

  /** A longer run from the same line has more characters. */
  lemma {:induction false} LongerRunsAreLonger(lines: seq<string>, i: nat, j: nat, k: nat)
    requires i < j < k <= |lines|
    ensures |Chunk(lines, i, j)| < |Chunk(lines, i, k)|
    decreases j - i
  {
    FirstLine(lines, i, k);
    if j == i + 1 {
      assert lines[i..j] == [lines[i]];
    } else {
      FirstLine(lines, i, j);
      LongerRunsAreLonger(lines, i + 1, j, k);
    }
  }

  lemma FirstLine(lines: seq<string>, i: nat, k: nat)
    requires i + 1 < k <= |lines|
    ensures Chunk(lines, i, k) == lines[i] + ['\n'] + Chunk(lines, i + 1, k)
  {
    assert lines[i..k][1..] == lines[i + 1..k];
  }

  /** Every run is at most as long as the longest one from its first line. */
  lemma NoRunBeats(lines: seq<string>, i: nat, j: nat, k: nat)
    requires i < j <= k <= |lines|
    ensures |Chunk(lines, i, j)| <= |Chunk(lines, i, k)|
  {
    if j < k {
      LongerRunsAreLonger(lines, i, j, k);
    }
  }

  /** The whole text is its longest run of lines. */
  lemma WholeTextIsLongest(text: string, i: nat, j: nat)
    requires i < j <= |Text.Split(text, '\n')|
    ensures |Chunk(Text.Split(text, '\n'), i, j)| <= |text|
  {
    var lines := Text.Split(text, '\n');
    NoRunBeats(lines, i, j, |lines|);
    Text.JoinSplit(text, '\n');
    assert lines[0..|lines|] == lines;
    DroppingLinesShortens(lines, i);
  }

  lemma {:induction false} DroppingLinesShortens(lines: seq<string>, i: nat)
    requires i < |lines|
    ensures |Chunk(lines, i, |lines|)| <= |Chunk(lines, 0, |lines|)|
  {
    if i > 0 {
      FirstLine(lines, i - 1, |lines|);
      DroppingLinesShortens(lines, i - 1);
    }
  }

  /** When a blank text itself parses, the empty answer is largest exactly for the empty text. */
  lemma ParsingBlankText(text: string, parses: string -> bool)
    requires Blank(text) && parses(text)
    ensures IsLargest(text, parses, "") <==> text == ""
  {
    var lines := Text.Split(text, '\n');
    Text.JoinSplit(text, '\n');
    assert lines[0..|lines|] == lines;
    assert Chunk(lines, 0, |lines|) == text;
    forall i, j | 0 <= i < j <= |lines| ensures |Chunk(lines, i, j)| <= |text| {
      WholeTextIsLongest(text, i, j);
    }
  }

  /** `_largest_parseable`, with `parses` standing for `ast.parse`. For each first line the search stops at the first
      success from the end. */
  method LargestParseable(text: string, parses: string -> bool) returns (best: string)
    ensures !Blank(text) ==> IsLargest(text, parses, best)
    ensures Blank(text) ==> best == ""
    ensures Blank(text) && parses(text) ==> (IsLargest(text, parses, best) <==> text == "")
  {
    if Blank(text) {
      if parses(text) { ParsingBlankText(text, parses); }
      return "";
    }
    var lines := Text.Split(text, '\n');
    var n := |lines|;
    if parses(text) {
      forall i, j | 0 <= i < j <= n ensures |Chunk(lines, i, j)| <= |text| {
        WholeTextIsLongest(text, i, j);
      }
      Text.JoinSplit(text, '\n');
      assert lines[0..n] == lines;
      assert text == Chunk(lines, 0, n);
      return text;
    }
    best := "";
    var i := 0;
    while i < n
      invariant 0 <= i <= n
      invariant best == "" || exists k, j :: 0 <= k < j <= n && best == Chunk(lines, k, j) && parses(best)
      invariant forall k, j :: 0 <= k < i && k < j <= n && parses(Chunk(lines, k, j)) ==> |Chunk(lines, k, j)| <= |best|
    {
      ghost var earlier := best;
      var j := n;
      while j > i
        invariant i <= j <= n && best == earlier
        invariant forall m :: j < m <= n ==> !parses(Chunk(lines, i, m))
      {
        var chunk := Chunk(lines, i, j);
        if parses(chunk) {
          forall m | i < m <= n && parses(Chunk(lines, i, m)) ensures |Chunk(lines, i, m)| <= |chunk| {
            NoRunBeats(lines, i, m, j);
          }
          if |chunk| > |best| { best := chunk; }
          break;
        }
        j := j - 1;
      }
      i := i + 1;
    }
  }

  // ---------- every blank text ----------

  /** A parser that accepts a blank text exactly when all of its characters are of one kind, line ends among them: to
      Python these are spaces, tabs, form feeds and line ends. */
  ghost predicate ReadsBlanks(parses: string -> bool, ok: char -> bool) {
    ok('\n') && forall s :: Blank(s) ==> (parses(s) <==> AllOf(s, ok))
  }

  predicate AllOf(s: string, ok: char -> bool) {
    forall i :: 0 <= i < |s| ==> ok(s[i])
  }

  /** No line with characters is acceptable, and no two empty lines are neighbours. */
  ghost predicate NothingToFind(lines: seq<string>, ok: char -> bool) {
    && (forall i :: 0 <= i < |lines| && AllOf(lines[i], ok) ==> lines[i] == "")
    && (forall i, j :: 0 <= i < j < |lines| && j == i + 1 ==> lines[i] != "" || lines[j] != "")
  }

  /** On a blank text the empty answer misses a run exactly when some line, or some two neighbouring empty lines, could
      have been returned. */
  lemma BlankTextMayMissARun(text: string, parses: string -> bool, ok: char -> bool)
    requires Blank(text) && ReadsBlanks(parses, ok)
    ensures IsLargest(text, parses, "") <==> NothingToFind(Text.Split(text, '\n'), ok)
  {
    var lines := Text.Split(text, '\n');
    Text.JoinSplit(text, '\n');
    forall i, j | 0 <= i < j <= |lines| ensures Blank(Chunk(lines, i, j)) {
      RunsAreBlank(text, i, j);
    }
    if IsLargest(text, parses, "") {
      forall i | 0 <= i < |lines| && AllOf(lines[i], ok) ensures lines[i] == "" {
        assert lines[i..i + 1] == [lines[i]];
        assert |Chunk(lines, i, i + 1)| <= |""|;
      }
      forall i, j | 0 <= i < j < |lines| && j == i + 1 ensures lines[i] != "" || lines[j] != "" {
        FirstLine(lines, i, i + 2);
        assert lines[j..j + 1] == [lines[j]];
        assert |Chunk(lines, i, i + 2)| == |lines[i]| + 1 + |lines[j]|;
        assert AllOf(lines[i] + ['\n'] + lines[j], ok) || lines[i] != "" || lines[j] != "";
      }
    } else {
      var i, j :| 0 <= i < j <= |lines| && parses(Chunk(lines, i, j)) && |Chunk(lines, i, j)| > |""|;
      assert AllOf(Chunk(lines, i, j), ok);
      if j == i + 1 {
        assert lines[i..j] == [lines[i]];
      } else {
        LinesOfRun(lines, i, j, ok);
      }
    }
  }

  /** In an acceptable run of several lines the first two are acceptable. */
  lemma LinesOfRun(lines: seq<string>, i: nat, j: nat, ok: char -> bool)
    requires i + 1 < j <= |lines| && AllOf(Chunk(lines, i, j), ok)
    ensures AllOf(lines[i], ok) && AllOf(lines[i + 1], ok)
  {
    FirstLine(lines, i, j);
    var rest := Chunk(lines, i + 1, j);
    var run := lines[i] + ['\n'] + rest;
    forall k | 0 <= k < |lines[i]| ensures ok(lines[i][k]) {
      assert run[k] == lines[i][k];
    }
    forall k | 0 <= k < |rest| ensures ok(rest[k]) {
      assert run[|lines[i]| + 1 + k] == rest[k];
    }
    if j == i + 2 {
      assert lines[i + 1..j] == [lines[i + 1]];
    } else {
      FirstLine(lines, i + 1, j);
      var second := lines[i + 1];
      forall k | 0 <= k < |second| ensures ok(second[k]) {
        assert rest[k] == second[k];
      }
    }
  }

  lemma RunsAreBlank(text: string, i: nat, j: nat)
    requires Blank(text) && i < j <= |Text.Split(text, '\n')|
    ensures Blank(Chunk(Text.Split(text, '\n'), i, j))
  {
    var lines := Text.Split(text, '\n');
    LinesAreBlank(text);
    JoinIsBlank(lines[i..j]);
  }

  lemma {:induction false} LinesAreBlank(text: string)
    requires Blank(text)
    ensures forall i :: 0 <= i < |Text.Split(text, '\n')| ==> Blank(Text.Split(text, '\n')[i])
  {
    if text != [] {
      LinesAreBlank(text[1..]);
    }
  }

  lemma {:induction false} JoinIsBlank(lines: seq<string>)
    requires forall i :: 0 <= i < |lines| ==> Blank(lines[i])
    ensures Blank(Text.Join(lines, '\n'))
  {
    if |lines| > 1 {
      JoinIsBlank(lines[1..]);
    }
  }

  /** Two empty lines parse as an empty program, but the search answers with no line at all. */
  lemma BlankCounterexample()
    ensures Blank("\n") && !IsLargest("\n", (s: string) => true, "")
  {
    ParsingBlankText("\n", (s: string) => true);
  }
}
