/** What the text functions of `CubeText` do, stated against their inverses and
    against each other. */
module TextProperties {
  import opened CubeText

  /** A single token is its own tokenisation. */
  lemma {:induction false} TokensOfToken(t: string)
    requires IsToken(t)
    ensures Tokens(t) == [t]
  {
    if |t| > 1 {
      assert IsToken(t[1..]);
      TokensOfToken(t[1..]);
      assert !IsSpace(t[1]);
      assert [t[0]] + t[1..] == t;
    } else {
      assert t == [t[0]] && t[1..] == [];
    }
  }

  /** Leading whitespace does not change the tokens. */
  lemma TokensAfterSpace(c: char, s: string)
    requires IsSpace(c)
    ensures Tokens([c] + s) == Tokens(s)
  {
    assert ([c] + s)[1..] == s;
  }

  lemma GluedCons(w: string, ta: seq<string>, tb: seq<string>, fuse: bool)
    requires fuse && |tb| > 0 ==> |ta| > 0
    ensures Glued([w] + ta, tb, fuse) == [w] + Glued(ta, tb, fuse)
  {
    if fuse && |ta| > 0 && |tb| > 0 {
      assert ([w] + ta)[..|ta|] == [w] + ta[..|ta| - 1];
    }
  }

  lemma GluedMerge(c: char, ta: seq<string>, tb: seq<string>, fuse: bool)
    requires |ta| > 0
    ensures Glued([[c] + ta[0]] + ta[1..], tb, fuse)
         == var g := Glued(ta, tb, fuse); [[c] + g[0]] + g[1..]
  {
    if fuse && |tb| > 0 && |ta| == 1 {
      assert [c] + (ta[0] + tb[0]) == ([c] + ta[0]) + tb[0];
    }
  }

  /** A text that ends in a non-space character has at least one token. */
  lemma {:induction false} TokensNonEmpty(s: string)
    requires |s| > 0 && !IsSpace(s[|s| - 1])
    ensures |Tokens(s)| > 0
  {
    if IsSpace(s[0]) {
      TokensNonEmpty(s[1..]);
    }
  }

  /** Tokenising two texts joined with nothing between them, as `"".join`
      does, gives the tokens of each, except that a token ending `a` and one
      starting `b` become a single token. */
  lemma {:induction false} TokensOfAppend(a: string, b: string)
    ensures Tokens(a + b) == Glued(Tokens(a), Tokens(b), Fuses(a, b))
  {
    if a == [] {
      assert a + b == b;
    } else {
      TokensOfAppend(a[1..], b);
      if IsSpace(a[0]) {
        AppendAfterSpace(a, b);
      } else if |a| == 1 {
        AppendOneChar(a, b);
      } else {
        AppendInWord(a, b);
      }
    }
  }

  /** `TokensOfAppend` when `a` starts with whitespace. */
  lemma AppendAfterSpace(a: string, b: string)
    requires a != [] && IsSpace(a[0])
    requires Tokens(a[1..] + b) == Glued(Tokens(a[1..]), Tokens(b), Fuses(a[1..], b))
    ensures Tokens(a + b) == Glued(Tokens(a), Tokens(b), Fuses(a, b))
  {
    assert (a + b)[1..] == a[1..] + b;
    assert a[1..] != [] ==> a[1..][|a[1..]| - 1] == a[|a| - 1];
    assert Fuses(a, b) == Fuses(a[1..], b);
  }

  /** `TokensOfAppend` when `a` is a single non-space character. */
  lemma AppendOneChar(a: string, b: string)
    requires |a| == 1 && !IsSpace(a[0])
    ensures Tokens(a + b) == Glued(Tokens(a), Tokens(b), Fuses(a, b))
  {
    var c := a[0];
    assert a == [c];
    assert ([c] + b)[1..] == b;
    assert [c][1..] == [];
  }

  /** `TokensOfAppend` when `a` has at least two characters, the first non-space. */
  lemma AppendInWord(a: string, b: string)
    requires |a| > 1 && !IsSpace(a[0])
    requires Tokens(a[1..] + b) == Glued(Tokens(a[1..]), Tokens(b), Fuses(a[1..], b))
    ensures Tokens(a + b) == Glued(Tokens(a), Tokens(b), Fuses(a, b))
  {
    var a' := a[1..];
    var ta, tb, r := Tokens(a'), Tokens(b), Tokens(a' + b);
    assert (a + b)[1..] == a' + b && (a + b)[1] == a'[0];
    assert a'[|a'| - 1] == a[|a| - 1];
    assert Fuses(a, b) == Fuses(a', b);
    if Fuses(a, b) {
      TokensNonEmpty(a');
    }
    if !IsSpace(a'[0]) {
      assert Tokens(a) == [[a[0]] + ta[0]] + ta[1..];
      assert Tokens(a + b) == [[a[0]] + r[0]] + r[1..];
      GluedMerge(a[0], ta, tb, Fuses(a, b));
    } else {
      assert Tokens(a) == [[a[0]]] + ta;
      assert Tokens(a + b) == [[a[0]]] + r;
      GluedCons([a[0]], ta, tb, Fuses(a, b));
    }
  }

  /** Tokenising undoes joining tokens with single spaces. */
  lemma {:induction false} TokensOfUnwords(ts: seq<string>)
    requires forall i :: 0 <= i < |ts| ==> IsToken(ts[i])
    ensures Tokens(Unwords(ts)) == ts
  {
    if |ts| == 1 {
      TokensOfToken(ts[0]);
    } else if |ts| > 1 {
      var rest := Unwords(ts[1..]);
      TokensOfUnwords(ts[1..]);
      TokensOfToken(ts[0]);
      TokensAfterSpace(' ', rest);
      assert ts[0] + " " + rest == ts[0] + (" " + rest);
      TokensOfAppend(ts[0], " " + rest);
      assert [ts[0]] + ts[1..] == ts;
    }
  }

  /** The first line of a text is everything before its first line boundary. */
  lemma {:induction false} SplitLinesOfLine(line: string, rest: string)
    requires NoLineBreak(line)
    ensures SplitLines(line + "\n" + rest) == [line] + SplitLines(rest)
  {
    var s := line + "\n" + rest;
    if line == [] {
      assert s == "\n" + rest && s[1..] == rest;
    } else {
      assert NoLineBreak(line[1..]);
      SplitLinesOfLine(line[1..], rest);
      assert s[1..] == line[1..] + "\n" + rest;
      assert [line[0]] + line[1..] == line;
    }
  }

  /** `splitlines` undoes writing lines one per `"\n"`-terminated line. */
  lemma {:induction false} SplitLinesOfTerminated(lines: seq<string>)
    requires forall i :: 0 <= i < |lines| ==> NoLineBreak(lines[i])
    ensures SplitLines(Terminated(lines)) == lines
  {
    if lines != [] {
      SplitLinesOfTerminated(lines[1..]);
      SplitLinesOfLine(lines[0], Terminated(lines[1..]));
      assert [lines[0]] + lines[1..] == lines;
    }
  }

  lemma ConcatCons(x: string, rest: seq<string>)
    ensures Concat([x] + rest) == x + Concat(rest)
  {
    assert ([x] + rest)[1..] == rest;
  }

  /** Joining the lines of `splitlines(keepends=True)` gives back the text. */
  lemma {:induction false} ConcatOfSplitLinesKeepEnds(s: string)
    ensures Concat(SplitLinesKeepEnds(s)) == s
    decreases |s|
  {
    if s != [] {
      if IsLineBreak(s[0]) {
        var w := BreakWidth(s);
        ConcatOfSplitLinesKeepEnds(s[w..]);
        ConcatCons(s[..w], SplitLinesKeepEnds(s[w..]));
        assert s[..w] + s[w..] == s;
      } else {
        var rest := SplitLinesKeepEnds(s[1..]);
        ConcatOfSplitLinesKeepEnds(s[1..]);
        if rest == [] {
          assert s == [s[0]];
        } else {
          ConcatCons([s[0]] + rest[0], rest[1..]);
          ConcatCons(rest[0], rest[1..]);
          assert [rest[0]] + rest[1..] == rest;
          assert s == [s[0]] + s[1..];
        }
      }
    }
  }

  predicate EndsInSpace(line: string) {
    |line| > 0 && IsSpace(line[|line| - 1])
  }

  /** The tokens of each line, one line after the other. */
  function TokensOfLines(lines: seq<string>): seq<string> {
    if lines == [] then [] else Tokens(lines[0]) + TokensOfLines(lines[1..])
  }

  /** When every line but the last ends in whitespace (a line boundary kept),
      the tokens of the joined lines are the
      tokens of the lines in turn: no token spans two lines. */
  lemma {:induction false} TokensOfSeparatedLines(lines: seq<string>)
    requires forall i :: 0 <= i < |lines| - 1 ==> EndsInSpace(lines[i])
    ensures Tokens(Concat(lines)) == TokensOfLines(lines)
  {
    if lines != [] {
      TokensOfSeparatedLines(lines[1..]);
      TokensOfAppend(lines[0], Concat(lines[1..]));
      if |lines| == 1 {
        assert Concat(lines[1..]) == "";
      }
    }
  }

  /** Every line boundary is whitespace. */
  lemma LineBreakIsSpace(c: char)
    requires IsLineBreak(c)
    ensures IsSpace(c)
  {
  }

  /** Every element `Tokens` produces is a token. */
  lemma {:induction false} TokensAreTokens(s: string)
    ensures forall i :: 0 <= i < |Tokens(s)| ==> IsToken(Tokens(s)[i])
  {
    if s != [] {
      TokensAreTokens(s[1..]);
      var rest := Tokens(s[1..]);
      if !IsSpace(s[0]) && |s| > 1 && !IsSpace(s[1]) {
        assert IsToken([s[0]] + rest[0]) by {
          assert forall k :: 1 <= k < |[s[0]] + rest[0]| ==> ([s[0]] + rest[0])[k] == rest[0][k - 1];
        }
      }
    }
  }

  /** With its line boundaries kept, every line but the last ends in whitespace. */
  lemma {:induction false} KeepEndsSeparated(s: string)
    ensures forall i :: 0 <= i < |SplitLinesKeepEnds(s)| - 1 ==> EndsInSpace(SplitLinesKeepEnds(s)[i])
    decreases |s|
  {
    if s != [] {
      if IsLineBreak(s[0]) {
        var w := BreakWidth(s);
        KeepEndsSeparated(s[w..]);
        LineBreakIsSpace(s[w - 1]);
      } else {
        KeepEndsSeparated(s[1..]);
      }
    }
  }

  /** Lines kept with their boundaries, as `read` would take them from a
      `str` with `splitlines(keepends=True)`: joining any run of them and
      tokenising gives the tokens of each line in turn. */
  lemma KeptLinesTokens(s: string, m: nat)
    requires m <= |SplitLinesKeepEnds(s)|
    ensures Tokens(Concat(SplitLinesKeepEnds(s)[m..])) == TokensOfLines(SplitLinesKeepEnds(s)[m..])
  {
    var ls := SplitLinesKeepEnds(s);
    KeepEndsSeparated(s);
    assert forall i :: 0 <= i < |ls[m..]| - 1 ==> ls[m..][i] == ls[m + i];
    TokensOfSeparatedLines(ls[m..]);
  }

  /** A line boundary as `splitlines` knows it: `"\r\n"`, or one boundary character. */
  predicate IsLineEnd(e: string) {
    e == "\r\n" || (|e| == 1 && IsLineBreak(e[0]))
  }

  /** `kept` is `line` followed by its boundary, and is not empty; only the
      last line of a text may end without a boundary. */
  predicate KeptLine(kept: string, line: string, last: bool) {
    |line| <= |kept| && kept == line + kept[|line|..] && kept != []
    && (IsLineEnd(kept[|line|..]) || (last && |kept| == |line|))
  }

  /** `kept` are the `lines` with their boundaries: line by line, and a lone
      `"\r"` is never followed by a line that starts with `"\n"` (the two
      would have been the one boundary `"\r\n"`). */
  predicate KeptLines(kept: seq<string>, lines: seq<string>) {
    |kept| == |lines|
    && (forall i :: 0 <= i < |lines| ==> KeptLine(kept[i], lines[i], i == |lines| - 1))
    && (forall i :: 0 <= i < |lines| - 1 && kept[i] == lines[i] + "\r" ==>
          |kept[i + 1]| > 0 && kept[i + 1][0] != '\n')
  }

  /** The first kept line starts with the text's first character. */
  lemma KeepEndsHead(t: string)
    requires t != []
    ensures |SplitLinesKeepEnds(t)| > 0 && |SplitLinesKeepEnds(t)[0]| > 0
    ensures SplitLinesKeepEnds(t)[0][0] == t[0]
  {
  }

  /** A line and its boundary in front of lines kept with theirs. */
  lemma KeptLinesCons(k: string, line: string, kept: seq<string>, lines: seq<string>)
    requires KeptLines(kept, lines) && KeptLine(k, line, lines == [])
    requires k == line + "\r" && lines != [] ==> kept[0][0] != '\n'
    ensures KeptLines([k] + kept, [line] + lines)
  {
    var ks, ls := [k] + kept, [line] + lines;
    forall i | 0 <= i < |ls| ensures KeptLine(ks[i], ls[i], i == |ls| - 1) {
      if i > 0 {
        assert ks[i] == kept[i - 1] && ls[i] == lines[i - 1];
      }
    }
    forall i | 0 <= i < |ls| - 1 && ks[i] == ls[i] + "\r"
      ensures |ks[i + 1]| > 0 && ks[i + 1][0] != '\n'
    {
      if i > 0 {
        assert ks[i] == kept[i - 1] && ls[i] == lines[i - 1] && ks[i + 1] == kept[i];
      }
    }
  }

  /** A character with no boundary in front of the first line. */
  lemma KeptLinesPrepend(c: char, kept: seq<string>, lines: seq<string>)
    requires KeptLines(kept, lines) && lines != []
    ensures KeptLines([[c] + kept[0]] + kept[1..], [[c] + lines[0]] + lines[1..])
  {
    var ks, ls := [[c] + kept[0]] + kept[1..], [[c] + lines[0]] + lines[1..];
    assert KeptLine(kept[0], lines[0], |lines| == 1);
    assert ks[0][|ls[0]|..] == kept[0][|lines[0]|..];
    assert KeptLine(ks[0], ls[0], |ls| == 1);
    forall i | 0 <= i < |ls| ensures KeptLine(ks[i], ls[i], i == |ls| - 1) {
      if i > 0 {
        assert ks[i] == kept[i] && ls[i] == lines[i];
      }
    }
    forall i | 0 <= i < |ls| - 1 && ks[i] == ls[i] + "\r"
      ensures |ks[i + 1]| > 0 && ks[i + 1][0] != '\n'
    {
      assert ks[i + 1] == kept[i + 1];
      if i == 0 {
        assert kept[0] == lines[0] + "\r" by {
          assert ks[0] == [c] + kept[0] && ls[0] + "\r" == [c] + (lines[0] + "\r");
        }
      } else {
        assert ks[i] == kept[i] && ls[i] == lines[i];
      }
    }
  }

  /** `splitlines(keepends=True)` gives the lines of `splitlines()`, each
      followed by the boundary that ended it: `"\r\n"` as one, any other
      boundary character alone, and nothing only after the last line. With
      `ConcatOfSplitLinesKeepEnds` this fixes both splits on every text. */
  lemma {:induction false} SplitLinesKeepEndsAreLines(s: string)
    ensures KeptLines(SplitLinesKeepEnds(s), SplitLines(s))
    decreases |s|
  {
    if s != [] {
      if IsLineBreak(s[0]) {
        var w := BreakWidth(s);
        var t := s[w..];
        SplitLinesKeepEndsAreLines(t);
        var e := s[..w];
        assert e == "" + e;
        if w == 2 {
          assert e == [s[0], s[1]] == "\r\n";
        } else {
          assert e == [s[0]];
        }
        if e == "" + "\r" && SplitLines(t) != [] {
          KeepEndsHead(t);
          assert t[0] == s[1];
        }
        KeptLinesCons(e, "", SplitLinesKeepEnds(t), SplitLines(t));
      } else {
        var t := s[1..];
        SplitLinesKeepEndsAreLines(t);
        if SplitLines(t) != [] {
          KeptLinesPrepend(s[0], SplitLinesKeepEnds(t), SplitLines(t));
        } else {
          assert KeptLine([s[0]], [s[0]], true);
        }
      }
    }
  }

  /** A line with no boundary in it is one line. */
  lemma {:induction false} SplitLinesOfBreakless(line: string)
    requires line != [] && NoLineBreak(line)
    ensures SplitLines(line) == [line]
  {
    assert !IsLineBreak(line[0]);
    if |line| > 1 {
      assert NoLineBreak(line[1..]);
      SplitLinesOfBreakless(line[1..]);
      assert [line[0]] + line[1..] == line;
    } else {
      assert line[1..] == [] && line == [line[0]];
    }
  }

  /** A token has no line boundary in it. */
  lemma TokenHasNoBreak(t: string)
    requires IsToken(t)
    ensures NoLineBreak(t)
  {
    forall i | 0 <= i < |t| ensures !IsLineBreak(t[i]) {
      if IsLineBreak(t[i]) { LineBreakIsSpace(t[i]); }
    }
  }

  /** Two tokens joined with nothing between them are one token. */
  lemma TokenAppend(a: string, b: string)
    requires IsToken(a) && IsToken(b)
    ensures IsToken(a + b)
  {
    assert forall k :: |a| <= k < |a + b| ==> (a + b)[k] == b[k - |a|];
  }

  /** Two lines, each a single token, split with `splitlines()` and joined
      again with `"".join`: the two tokens come out as one. */
  lemma SplitLinesFuseTokens(a: string, b: string)
    requires IsToken(a) && IsToken(b)
    ensures SplitLines(a + "\n" + b) == [a, b]
    ensures TokensOfLines([a, b]) == [a, b]
    ensures Tokens(Concat(SplitLines(a + "\n" + b))) == [a + b]
  {
    TokenHasNoBreak(a);
    TokenHasNoBreak(b);
    SplitLinesOfLine(a, b);
    SplitLinesOfBreakless(b);
    TokensOfToken(a);
    TokensOfToken(b);
    assert [a, b][1..] == [b] && [b][1..] == [];
    assert TokensOfLines([b]) == [b] + [];
    assert TokensOfLines([a, b]) == [a] + [b];
    assert Concat([b]) == b + "";
    assert Concat([a, b]) == a + b;
    TokenAppend(a, b);
    TokensOfToken(a + b);
  }
}
