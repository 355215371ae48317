/** Python's whitespace handling on `str`: `split()` with no separator,
    `strip()` with no argument, and `' '.join(...)`, on strings as sequences
    of characters. */
module Words {

  /** `str.isspace` for one character, as CPython's `split()` and `strip()`
      use it: the control characters 0x09-0x0D, 0x1C-0x1F and 0x85, the
      space, and the Unicode separators. */
  predicate IsSpace(c: char) {
    var n := c as int;
    (0x09 <= n <= 0x0D) || (0x1C <= n <= 0x20) || n == 0x85 || n == 0xA0 ||
    n == 0x1680 || (0x2000 <= n <= 0x200A) || n == 0x2028 || n == 0x2029 ||
    n == 0x202F || n == 0x205F || n == 0x3000
  }

  predicate Blank(s: string) {
    forall i :: 0 <= i < |s| ==> IsSpace(s[i])
  }

  /** A word as `split()` produces it: non-empty, with no whitespace in it. */
  predicate IsWord(w: string) {
    |w| > 0 && forall i :: 0 <= i < |w| ==> !IsSpace(w[i])
  }

  predicate AllWords(ws: seq<string>) {
    forall k :: 0 <= k < |ws| ==> IsWord(ws[k])
  }

  /** The length of the run of non-whitespace characters that starts `s`. */
  function TokenLength(s: string): (n: nat)
    ensures n <= |s|
    ensures forall i :: 0 <= i < n ==> !IsSpace(s[i])
    ensures n < |s| ==> IsSpace(s[n])
  {
    if s == [] || IsSpace(s[0]) then 0 else 1 + TokenLength(s[1..])
  }

  /** `s.split()`: the maximal runs of non-whitespace characters, in order. */
  function Split(s: string): (ws: seq<string>)
    ensures |ws| <= |s|
    decreases |s|
  {
    if s == [] then []
    else if IsSpace(s[0]) then Split(s[1..])
    else
      var n := TokenLength(s);
      [s[..n]] + Split(s[n..])
  }

  /** `' '.join(ws)`, built left to right the way a line grows word by word. */
  function Join(ws: seq<string>): string {
    if |ws| == 0 then ""
    else if |ws| == 1 then ws[0]
    else Join(ws[..|ws| - 1]) + " " + ws[|ws| - 1]
  }

  /** `s.lstrip()`: `s` without its leading whitespace. */
  function StripLeft(s: string): (r: string)
    ensures |r| <= |s| && r == s[|s| - |r|..]
    ensures forall i :: 0 <= i < |s| - |r| ==> IsSpace(s[i])
    ensures r != [] ==> !IsSpace(r[0])
  {
    if s != [] && IsSpace(s[0]) then StripLeft(s[1..]) else s
  }

  /** `s.rstrip()`: `s` without its trailing whitespace. */
  function StripRight(s: string): (r: string)
    ensures |r| <= |s| && r == s[..|r|]
    ensures forall i :: |r| <= i < |s| ==> IsSpace(s[i])
    ensures r != [] ==> !IsSpace(r[|r| - 1])
  {
    if s != [] && IsSpace(s[|s| - 1]) then StripRight(s[..|s| - 1]) else s
  }

  /** `s.strip()`. */
  function Strip(s: string): (r: string)
    ensures r == [] || (!IsSpace(r[0]) && !IsSpace(r[|r| - 1]))
  {
    StripRight(StripLeft(s))
  }

  //---------------------------------------------------------------------------
  // Properties of Split, Strip and Join
  //---------------------------------------------------------------------------

  /** Every piece `split()` produces is a word. */
  lemma {:induction false} SplitWords(s: string)
    ensures AllWords(Split(s))
    decreases |s|
  {
    if s != [] {
      if IsSpace(s[0]) {
        SplitWords(s[1..]);
      } else {
        var n := TokenLength(s);
        SplitWords(s[n..]);
        var ws := Split(s);
        assert ws == [s[..n]] + Split(s[n..]);
        assert IsWord(s[..n]);
        assert forall k :: 0 < k < |ws| ==> ws[k] == Split(s[n..])[k - 1];
      }
    }
  }

  /** `s.split()` is empty exactly when `s` is empty or whitespace only. */
  lemma {:induction false} SplitBlank(s: string)
    ensures Split(s) == [] <==> Blank(s)
    decreases |s|
  {
    if s != [] && IsSpace(s[0]) {
      SplitBlank(s[1..]);
      assert Blank(s) <==> Blank(s[1..]) by {
        if Blank(s[1..]) {
          forall i | 0 <= i < |s| ensures IsSpace(s[i]) {
            if i > 0 { assert s[i] == s[1..][i - 1]; }
          }
        }
      }
    }
  }

  /** Splitting a single word gives that word back. */
  lemma SplitWord(w: string)
    requires IsWord(w)
    ensures Split(w) == [w]
  {
    assert TokenLength(w) == |w|;
    assert w[..|w|] == w;
    assert w[|w|..] == [];
    assert Split(w) == [w] + Split([]);
  }

  /** A whitespace character separates: the words of `a + [c] + b` are the
      words of `a` followed by the words of `b`. */
  lemma {:induction false} SplitAtSpace(a: string, c: char, b: string)
    requires IsSpace(c)
    ensures Split(a + [c] + b) == Split(a) + Split(b)
    decreases |a|
  {
    var s := a + [c] + b;
    if a == [] {
      assert s == [c] + b;
      assert s[1..] == b;
      assert Split(s) == Split(b);
    } else if IsSpace(a[0]) {
      assert s[1..] == a[1..] + [c] + b;
      SplitAtSpace(a[1..], c, b);
      assert Split(s) == Split(s[1..]);
      assert Split(a) == Split(a[1..]);
    } else {
      SplitAtSpaceToken(a, c, b);
    }
  }

  /** The case of `SplitAtSpace` where `a` starts with a word. */
  lemma {:induction false} SplitAtSpaceToken(a: string, c: char, b: string)
    requires IsSpace(c) && a != [] && !IsSpace(a[0])
    ensures Split(a + [c] + b) == Split(a) + Split(b)
    decreases |a|, 0
  {
    var t := [c] + b;
    var s := a + t;
    assert a + [c] + b == s;
    var m := TokenLength(a);
    TokenLengthPrefix(a, t);
    assert s[..m] == a[..m];
    if m == |a| {
      assert s[m..] == t;
      assert t[1..] == b;
      assert a[m..] == [];
    } else {
      assert s[m..] == a[m..] + [c] + b;
      SplitAtSpace(a[m..], c, b);
    }
  }

  /** The leading token of `a + t` is that of `a` when `a`'s token stops
      inside `a` or `t` starts with whitespace. */
  lemma {:induction false} TokenLengthPrefix(a: string, t: string)
    requires TokenLength(a) < |a| || (t != [] && IsSpace(t[0]))
    ensures TokenLength(a + t) == TokenLength(a)
    decreases |a|
  {
    if a != [] && !IsSpace(a[0]) {
      assert (a + t)[1..] == a[1..] + t;
      TokenLengthPrefix(a[1..], t);
    }
  }

  /** Round trip: splitting the space-joined words gives the words back. */
  lemma {:induction false} SplitJoin(ws: seq<string>)
    requires AllWords(ws)
    ensures Split(Join(ws)) == ws
    decreases |ws|
  {
    if |ws| == 1 {
      SplitWord(ws[0]);
    } else if |ws| > 1 {
      var init, last := ws[..|ws| - 1], ws[|ws| - 1];
      SplitJoin(init);
      SplitAtSpace(Join(init), ' ', last);
      assert Join(init) + " " + last == Join(init) + [' '] + last;
      SplitWord(last);
      assert init + [last] == ws;
    }
  }

  /** Stripping changes nothing when `s` neither starts nor ends with
      whitespace. */
  lemma StripUnchanged(s: string)
    requires s == [] || (!IsSpace(s[0]) && !IsSpace(s[|s| - 1]))
    ensures Strip(s) == s
  {
  }

  /** Joined words make a non-empty line that neither starts nor ends with
      whitespace. */
  lemma {:induction false} JoinEdges(ws: seq<string>)
    requires ws != [] && AllWords(ws)
    ensures var r := Join(ws); r != [] && !IsSpace(r[0]) && !IsSpace(r[|r| - 1])
    decreases |ws|
  {
    if |ws| > 1 {
      var init := ws[..|ws| - 1];
      assert AllWords(init);
      JoinEdges(init);
      assert Join(ws) == Join(init) + " " + ws[|ws| - 1];
    }
  }

  /** Joining `ws + [w]` is appending a space and `w` to the join of `ws`. */
  lemma JoinSnoc(ws: seq<string>, w: string)
    requires ws != []
    ensures Join(ws + [w]) == Join(ws) + " " + w
  {
    assert (ws + [w])[..|ws|] == ws;
  }
}
