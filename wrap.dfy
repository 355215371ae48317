/** `wrap_text`: greedy, word-granularity line breaking of a headline. */
module TextWrap {
  import opened Words
  import opened Metrics

  //---------------------------------------------------------------------------
  // Specification
  //---------------------------------------------------------------------------

  /** The measured width of the trial line made of the first `j` words. */
  function TrialWidth(font: Font, words: seq<string>, j: nat): int
    requires j <= |words|
  {
    Width(font, Join(words[..j]))
  }

  lemma TrialWidthPrefix(font: Font, words: seq<string>, n: nat, j: nat)
    requires j <= n <= |words|
    ensures TrialWidth(font, words[..n], j) == TrialWidth(font, words, j)
  {
    assert words[..n][..j] == words[..j];
  }

  /** A line that fit as it grew fits as a whole. */
  lemma FitsWhole(font: Font, maxWidth: int, line: seq<string>)
    requires Fits(font, maxWidth, line) && |line| >= 2
    ensures Width(font, Join(line)) <= maxWidth
  {
    assert TrialWidth(font, line, |line|) <= maxWidth;
    assert line[..|line|] == line;
  }

  /** Where the line that holds `words[..i]` stops growing: the first index
      whose word would push the line past `maxWidth`, or the end. */
  function LineEnd(font: Font, maxWidth: int, words: seq<string>, i: nat): (j: nat)
    requires 1 <= i <= |words|
    ensures i <= j <= |words|
    decreases |words| - i
  {
    if i == |words| then i
    else if TrialWidth(font, words, i + 1) > maxWidth then i
    else LineEnd(font, maxWidth, words, i + 1)
  }

  /** The words of each output line, in order: the first word of a line is
      always taken, then words are added while the line still fits. */
  function Groups(font: Font, maxWidth: int, words: seq<string>): (g: seq<seq<string>>)
    decreases |words|
  {
    if words == [] then []
    else
      var n := LineEnd(font, maxWidth, words, 1);
      [words[..n]] + Groups(font, maxWidth, words[n..])
  }

  function JoinAll(g: seq<seq<string>>): (lines: seq<string>)
    ensures |lines| == |g|
  {
    if g == [] then [] else [Join(g[0])] + JoinAll(g[1..])
  }

  function SplitAll(lines: seq<string>): (g: seq<seq<string>>)
    ensures |g| == |lines|
  {
    if lines == [] then [] else [Split(lines[0])] + SplitAll(lines[1..])
  }

  function Flatten(g: seq<seq<string>>): seq<string> {
    if g == [] then [] else g[0] + Flatten(g[1..])
  }

  /** The lines `wrap_text(text, font, draw, maxWidth)` returns. */
  function Wrap(font: Font, maxWidth: int, text: string): seq<string> {
    JoinAll(Groups(font, maxWidth, Split(text)))
  }

  /** Every partial line of two or more words, as it was being built, fit. */
  ghost predicate Fits(font: Font, maxWidth: int, line: seq<string>) {
    forall j :: 2 <= j <= |line| ==> TrialWidth(font, line, j) <= maxWidth
  }

  /** The greedy breaking, stated without the algorithm: the lines hold the
      words in order, none is empty, each grew only while it fit, and each
      line but the last was closed because the next word did not fit. */
  ghost predicate GreedyBreak(font: Font, maxWidth: int, words: seq<string>, g: seq<seq<string>>) {
    && Flatten(g) == words
    && (forall k :: 0 <= k < |g| ==> g[k] != [] && Fits(font, maxWidth, g[k]))
    && (forall k :: 0 <= k < |g| - 1 ==> Width(font, Join(g[k] + [g[k + 1][0]])) > maxWidth)
  }

  /** Line `k` was closed because the first word of line `k + 1` would have
      made it wider than `maxWidth`. */
  ghost predicate ClosedByNext(font: Font, maxWidth: int, lines: seq<string>, k: nat)
    requires k + 1 < |lines|
  {
    Split(lines[k + 1]) != [] && Width(font, lines[k] + " " + Split(lines[k + 1])[0]) > maxWidth
  }

  //---------------------------------------------------------------------------
  // The algorithm
  //---------------------------------------------------------------------------

  /** `wrap_text`. Each pass of the loop emits the line the inner loop grows
      (`GrowLine`) and drops its words. */
  method WrapText(text: string, font: Font, maxWidth: int) returns (lines: seq<string>)
    ensures lines == Wrap(font, maxWidth, text)
  {
    var words := Split(text);
    SplitWords(text);
    ghost var wrapped := Wrap(font, maxWidth, text);
    lines := [];
    while words != []
      invariant AllWords(words)
      invariant lines + JoinAll(Groups(font, maxWidth, words)) == wrapped
      decreases |words|
    {
      var line, i := GrowLine(font, maxWidth, words);
      FirstGroup(font, maxWidth, words);
      ghost var later := JoinAll(Groups(font, maxWidth, words[i..]));
      assert (lines + [line]) + later == lines + ([line] + later);
      lines := lines + [line];
      words := words[i..];
    }
  }

  /** The inner loop of `wrap_text`: grows a line from the first of `words`,
      one word at a time, and stops before the word that would make a
      non-empty line wider than `maxWidth`. It returns the line and the
      number of words it took, which is where `LineEnd` ends the line. */
  method GrowLine(font: Font, maxWidth: int, words: seq<string>) returns (line: string, i: nat)
    requires words != [] && AllWords(words)
    ensures i == LineEnd(font, maxWidth, words, 1)
    ensures line == Join(words[..i])
  {
    line := "";
    i := 0;
    while i < |words|
      invariant 0 <= i <= |words|
      invariant i == 0 ==> line == ""
      invariant i > 0 ==> line == Join(words[..i])
      invariant FitsUpTo(font, maxWidth, words, i)
      decreases |words| - i
    {
      var testLine := if line != "" then Strip(line + " " + words[i]) else words[i];
      TestLineGrows(font, words, i, line, testLine);
      var w := Width(font, testLine);
      if w > maxWidth && line != "" {
        break;
      }
      line := testLine;
      i := i + 1;
    }
    FitsUpToAll(font, maxWidth, words, i);
    LineEndUnique(font, maxWidth, words, 1, i);
  }

  /** The trial lines of the first `i` words all fit, stated one step at a
      time. */
  ghost predicate FitsUpTo(font: Font, maxWidth: int, words: seq<string>, i: nat)
    requires i <= |words|
  {
    i < 2 || (TrialWidth(font, words, i) <= maxWidth && FitsUpTo(font, maxWidth, words, i - 1))
  }

  lemma {:induction false} FitsUpToAll(font: Font, maxWidth: int, words: seq<string>, i: nat)
    requires i <= |words| && FitsUpTo(font, maxWidth, words, i)
    ensures forall j :: 2 <= j <= i ==> TrialWidth(font, words, j) <= maxWidth
  {
    if i >= 2 {
      FitsUpToAll(font, maxWidth, words, i - 1);
    }
  }

  /** The trial line of the inner loop is the line grown by the next word:
      an empty line means no word yet. */
  lemma TestLineGrows(font: Font, words: seq<string>, i: nat, line: string, testLine: string)
    requires AllWords(words) && i < |words|
    requires i == 0 ==> line == ""
    requires i > 0 ==> line == Join(words[..i])
    requires testLine == if line != "" then Strip(line + " " + words[i]) else words[i]
    ensures (line != "") == (i > 0)
    ensures testLine == Join(words[..i + 1])
    ensures Width(font, testLine) == TrialWidth(font, words, i + 1)
  {
    if i > 0 {
      JoinGrows(words, i);
    } else {
      assert words[..1] == [words[0]];
    }
  }

  /** Joining the first `i` words, adding a space and the next word, and
      stripping, gives the join of the first `i + 1` words: the `strip()`
      changes nothing. */
  lemma JoinGrows(words: seq<string>, i: nat)
    requires AllWords(words) && 0 < i < |words|
    ensures Join(words[..i]) != ""
    ensures Strip(Join(words[..i]) + " " + words[i]) == Join(words[..i + 1])
  {
    var init, w := words[..i], words[i];
    assert AllWords(init);
    JoinEdges(init);
    var s := Join(init) + " " + w;
    assert IsWord(w);
    assert s[0] == Join(init)[0];
    assert s[|s| - 1] == w[|w| - 1];
    StripUnchanged(s);
    JoinSnoc(init, w);
    assert init + [w] == words[..i + 1];
  }

  /** The first line of the greedy breaking is the first `LineEnd` words, and
      the words after it are still words. */
  lemma FirstGroup(font: Font, maxWidth: int, words: seq<string>)
    requires AllWords(words) && words != []
    ensures var n := LineEnd(font, maxWidth, words, 1);
      && JoinAll(Groups(font, maxWidth, words))
         == [Join(words[..n])] + JoinAll(Groups(font, maxWidth, words[n..]))
      && AllWords(words[n..])
  {
    var n := LineEnd(font, maxWidth, words, 1);
    var g := Groups(font, maxWidth, words);
    assert g == [words[..n]] + Groups(font, maxWidth, words[n..]);
    assert g[1..] == Groups(font, maxWidth, words[n..]);
  }

  //---------------------------------------------------------------------------
  // What the breaking guarantees
  //---------------------------------------------------------------------------

  lemma {:induction false} FlattenAppend(a: seq<string>, g: seq<seq<string>>)
    ensures Flatten([a] + g) == a + Flatten(g)
  {
    assert ([a] + g)[1..] == g;
  }

  /** Each word of a line is one of the flattened words. */
  lemma {:induction false} InFlatten(g: seq<seq<string>>, k: nat, x: nat)
    requires k < |g| && x < |g[k]|
    ensures g[k][x] in Flatten(g)
    decreases k
  {
    if k > 0 {
      InFlatten(g[1..], k - 1, x);
    } else {
      assert Flatten(g)[x] == g[0][x];
    }
  }

  /** The line that starts at `i` fits as it grows, and is closed by a word
      that does not fit unless it reaches the end. */
  lemma {:induction false} LineEndProperties(font: Font, maxWidth: int, words: seq<string>, i: nat)
    requires 1 <= i <= |words|
    requires forall j :: 2 <= j <= i ==> TrialWidth(font, words, j) <= maxWidth
    ensures var n := LineEnd(font, maxWidth, words, i);
      && (forall j :: 2 <= j <= n ==> TrialWidth(font, words, j) <= maxWidth)
      && (n < |words| ==> TrialWidth(font, words, n + 1) > maxWidth)
    decreases |words| - i
  {
    if i == |words| {
    } else if TrialWidth(font, words, i + 1) > maxWidth {
    } else {
      LineEndProperties(font, maxWidth, words, i + 1);
    }
  }

  /** Putting a fitting line in front of a greedy breaking keeps it greedy
      when the line was closed by the next line's first word. */
  lemma GreedyCons(font: Font, maxWidth: int, line: seq<string>, rest: seq<string>, h: seq<seq<string>>)
    requires line != [] && Fits(font, maxWidth, line)
    requires GreedyBreak(font, maxWidth, rest, h)
    requires h != [] ==> Width(font, Join(line + [h[0][0]])) > maxWidth
    ensures GreedyBreak(font, maxWidth, line + rest, [line] + h)
  {
    var g := [line] + h;
    FlattenAppend(line, h);
    assert forall k :: 0 < k < |g| ==> g[k] == h[k - 1];
  }

  /** The first computed line fits as it grows and, unless it takes every
      word, was closed by a word that does not fit. */
  lemma FirstLine(font: Font, maxWidth: int, words: seq<string>)
    requires words != []
    ensures var n := LineEnd(font, maxWidth, words, 1);
      && Fits(font, maxWidth, words[..n])
      && (n < |words| ==> TrialWidth(font, words, n + 1) > maxWidth)
  {
    var n := LineEnd(font, maxWidth, words, 1);
    LineEndProperties(font, maxWidth, words, 1);
    forall j | 2 <= j <= n ensures TrialWidth(font, words[..n], j) <= maxWidth {
      TrialWidthPrefix(font, words, n, j);
    }
  }

  /** The computed grouping is a greedy breaking of the words. */
  lemma {:induction false} GroupsAreGreedy(font: Font, maxWidth: int, words: seq<string>)
    ensures GreedyBreak(font, maxWidth, words, Groups(font, maxWidth, words))
    decreases |words|
  {
    if words != [] {
      var n := LineEnd(font, maxWidth, words, 1);
      var line, rest := words[..n], words[n..];
      GroupsAreGreedy(font, maxWidth, rest);
      var h := Groups(font, maxWidth, rest);
      FirstLine(font, maxWidth, words);
      if h != [] {
        assert h[0] == rest[..LineEnd(font, maxWidth, rest, 1)];
        assert line + [h[0][0]] == words[..n + 1];
      }
      GreedyCons(font, maxWidth, line, rest, h);
      assert line + rest == words;
    }
  }

  /** A line that fits as it grows and ends where the next word does not fit
      is exactly the line `LineEnd` computes. */
  lemma {:induction false} LineEndUnique(font: Font, maxWidth: int, words: seq<string>, i: nat, m: nat)
    requires 1 <= i <= m <= |words|
    requires forall j :: i < j <= m ==> TrialWidth(font, words, j) <= maxWidth
    requires m < |words| ==> TrialWidth(font, words, m + 1) > maxWidth
    ensures LineEnd(font, maxWidth, words, i) == m
    decreases m - i
  {
    if i < m {
      LineEndUnique(font, maxWidth, words, i + 1, m);
    }
  }

  /** Determinism: a greedy breaking of the words is unique, so it is the
      computed grouping. */
  lemma {:induction false} GreedyIsGroups(font: Font, maxWidth: int, words: seq<string>, g: seq<seq<string>>)
    requires GreedyBreak(font, maxWidth, words, g)
    ensures g == Groups(font, maxWidth, words)
    decreases |words|
  {
    if g == [] {
    } else {
      var m := |g[0]|;
      var tail := g[1..];
      FlattenAppend(g[0], tail);
      assert g == [g[0]] + tail;
      assert words == g[0] + Flatten(tail);
      assert g[0] == words[..m];
      var rest := words[m..];
      assert Flatten(tail) == rest;
      assert Fits(font, maxWidth, g[0]);
      forall j | 1 < j <= m ensures TrialWidth(font, words, j) <= maxWidth {
        TrialWidthPrefix(font, words, m, j);
      }
      if m < |words| {
        assert tail != [];
        assert tail[0] != [];
        assert g[0] + [g[1][0]] == words[..m + 1] by {
          assert g[1][0] == Flatten(tail)[0] == words[m];
        }
      }
      LineEndUnique(font, maxWidth, words, 1, m);
      assert GreedyBreak(font, maxWidth, rest, tail) by {
        forall k | 0 <= k < |tail| ensures tail[k] != [] && Fits(font, maxWidth, tail[k]) {
          assert tail[k] == g[k + 1];
        }
        forall k | 0 <= k < |tail| - 1
          ensures Width(font, Join(tail[k] + [tail[k + 1][0]])) > maxWidth
        {
          assert tail[k] == g[k + 1] && tail[k + 1] == g[k + 2];
        }
      }
      GreedyIsGroups(font, maxWidth, rest, tail);
    }
  }

  /** Each line of the computed grouping is a non-empty run of the words. */
  lemma GroupsOfWords(font: Font, maxWidth: int, words: seq<string>)
    requires AllWords(words)
    ensures forall k :: 0 <= k < |Groups(font, maxWidth, words)| ==>
      Groups(font, maxWidth, words)[k] != [] && AllWords(Groups(font, maxWidth, words)[k])
  {
    var g := Groups(font, maxWidth, words);
    GroupsAreGreedy(font, maxWidth, words);
    forall k, x | 0 <= k < |g| && 0 <= x < |g[k]| ensures IsWord(g[k][x]) {
      InFlatten(g, k, x);
    }
  }

  /** No more lines than words. */
  lemma {:induction false} GroupsCount(font: Font, maxWidth: int, words: seq<string>)
    ensures |Groups(font, maxWidth, words)| <= |words|
    decreases |words|
  {
    if words != [] {
      GroupsCount(font, maxWidth, words[LineEnd(font, maxWidth, words, 1)..]);
    }
  }

  lemma {:induction false} SplitAllJoinAll(g: seq<seq<string>>)
    requires forall k :: 0 <= k < |g| ==> AllWords(g[k])
    ensures SplitAll(JoinAll(g)) == g
    decreases |g|
  {
    if g != [] {
      SplitJoin(g[0]);
      SplitAllJoinAll(g[1..]);
      assert JoinAll(g)[1..] == JoinAll(g[1..]);
    }
  }

  lemma {:induction false} JoinAllAt(g: seq<seq<string>>, k: nat)
    requires k < |g|
    ensures JoinAll(g)[k] == Join(g[k])
    decreases k
  {
    if k > 0 {
      JoinAllAt(g[1..], k - 1);
    }
  }

  /** The words of each emitted line, read back with `split()`, are the
      words the greedy breaking put there. */
  lemma WrapLineWords(font: Font, maxWidth: int, text: string)
    ensures SplitAll(Wrap(font, maxWidth, text)) == Groups(font, maxWidth, Split(text))
  {
    var g := Groups(font, maxWidth, Split(text));
    SplitWords(text);
    GroupsOfWords(font, maxWidth, Split(text));
    assert forall k :: 0 <= k < |g| ==> AllWords(g[k]);
    SplitAllJoinAll(g);
  }

  /** No word is dropped, duplicated or reordered: the words of the lines,
      in order, are `text.split()`. */
  lemma WrapKeepsWords(font: Font, maxWidth: int, text: string)
    ensures Flatten(SplitAll(Wrap(font, maxWidth, text))) == Split(text)
  {
    WrapLineWords(font, maxWidth, text);
    GroupsAreGreedy(font, maxWidth, Split(text));
  }

  /** Every line is non-empty and neither starts nor ends with whitespace,
      and there are at most as many lines as words. */
  lemma WrapLinesNonEmpty(font: Font, maxWidth: int, text: string)
    ensures var lines := Wrap(font, maxWidth, text);
      && |lines| <= |Split(text)|
      && forall k :: 0 <= k < |lines| ==>
           lines[k] != "" && !IsSpace(lines[k][0]) && !IsSpace(lines[k][|lines[k]| - 1])
  {
    var g := Groups(font, maxWidth, Split(text));
    GroupsCount(font, maxWidth, Split(text));
    SplitWords(text);
    GroupsOfWords(font, maxWidth, Split(text));
    var lines := Wrap(font, maxWidth, text);
    forall k | 0 <= k < |lines|
      ensures lines[k] != "" && !IsSpace(lines[k][0]) && !IsSpace(lines[k][|lines[k]| - 1])
    {
      JoinAllAt(g, k);
      JoinEdges(g[k]);
    }
  }

  /** Width bound: a line of two or more words fits; only a single word can
      be wider than `maxWidth`. */
  lemma WrapWidthBound(font: Font, maxWidth: int, text: string)
    ensures var lines := Wrap(font, maxWidth, text);
      forall k :: 0 <= k < |lines| && |Split(lines[k])| >= 2 ==> Width(font, lines[k]) <= maxWidth
  {
    var g := Groups(font, maxWidth, Split(text));
    var lines := Wrap(font, maxWidth, text);
    WrapLineWords(font, maxWidth, text);
    GroupsAreGreedy(font, maxWidth, Split(text));
    forall k | 0 <= k < |lines| && |Split(lines[k])| >= 2 ensures Width(font, lines[k]) <= maxWidth {
      JoinAllAt(g, k);
      SplitAllAt(lines, k);
      FitsWhole(font, maxWidth, g[k]);
    }
  }

  lemma {:induction false} SplitAllAt(lines: seq<string>, k: nat)
    requires k < |lines|
    ensures SplitAll(lines)[k] == Split(lines[k])
    decreases k
  {
    if k > 0 {
      SplitAllAt(lines[1..], k - 1);
    }
  }

  /** Greedy maximality: every line but the last was closed because adding
      the first word of the next line would have made it too wide. */
  lemma WrapMaximal(font: Font, maxWidth: int, text: string)
    ensures var lines := Wrap(font, maxWidth, text);
      forall k :: 0 <= k < |lines| - 1 ==> ClosedByNext(font, maxWidth, lines, k)
  {
    var g := Groups(font, maxWidth, Split(text));
    var lines := Wrap(font, maxWidth, text);
    WrapLineWords(font, maxWidth, text);
    GroupsAreGreedy(font, maxWidth, Split(text));
    forall k | 0 <= k < |lines| - 1 ensures ClosedByNext(font, maxWidth, lines, k) {
      JoinAllAt(g, k);
      SplitAllAt(lines, k + 1);
      JoinSnoc(g[k], g[k + 1][0]);
    }
  }

  /** Empty or whitespace-only text, and only such text, yields no lines. */
  lemma WrapBlank(font: Font, maxWidth: int, text: string)
    ensures Wrap(font, maxWidth, text) == [] <==> Blank(text)
  {
    SplitBlank(text);
    var words := Split(text);
    if words != [] {
      assert Groups(font, maxWidth, words) != [];
    }
  }
}
