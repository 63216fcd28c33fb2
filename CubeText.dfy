/** The text handling the parser relies on: Python's whitespace, `str.split()`
    (equivalently `re.findall(r"\S+", …)`), `str.splitlines()` with and without
    kept line ends, and `"".join(…)`. */
module CubeText {

  /** Python's `str.isspace()`: the characters `str.split()` splits on and the
      regular expression `\S` excludes. */
  predicate IsSpace(c: char) {
    c == ' ' || c == '\t' || c == '\n' || c == '\r' || c == '\U{0B}' || c == '\U{0C}'
    || ('\U{1C}' <= c <= '\U{1F}') || c == '\U{85}' || c == '\U{A0}' || c == '\U{1680}'
    || ('\U{2000}' <= c <= '\U{200A}') || c == '\U{2028}' || c == '\U{2029}'
    || c == '\U{202F}' || c == '\U{205F}' || c == '\U{3000}'
  }

  /** The line boundaries of Python's `str.splitlines()`; `"\r\n"` counts as one. */
  predicate IsLineBreak(c: char) {
    c == '\n' || c == '\r' || c == '\U{0B}' || c == '\U{0C}' || c == '\U{1C}' || c == '\U{1D}'
    || c == '\U{1E}' || c == '\U{85}' || c == '\U{2028}' || c == '\U{2029}'
  }

  /** A token: a non-empty run of non-whitespace characters. */
  predicate IsToken(t: string) {
    |t| > 0 && forall i :: 0 <= i < |t| ==> !IsSpace(t[i])
  }

  predicate NoLineBreak(line: string) {
    forall i :: 0 <= i < |line| ==> !IsLineBreak(line[i])
  }

  /** `s.split()`: the maximal runs of non-whitespace characters of `s`, in
      order. A non-space character starts a new token unless the character
      after it is non-space too, in which case it joins that character's token. */
  function Tokens(s: string): (ts: seq<string>)
    ensures s != [] && !IsSpace(s[0]) ==> |ts| > 0 && |ts[0]| > 0 && ts[0][0] == s[0]
  {
    if s == [] then []
    else if IsSpace(s[0]) then Tokens(s[1..])
    else
      var rest := Tokens(s[1..]);
      if |s| > 1 && !IsSpace(s[1]) then [[s[0]] + rest[0]] + rest[1..]
      else [[s[0]]] + rest
  }

  /** `" ".join(ts)`. */
  function Unwords(ts: seq<string>): string {
    if ts == [] then ""
    else if |ts| == 1 then ts[0]
    else ts[0] + " " + Unwords(ts[1..])
  }

  /** `"".join(lines)`. */
  function Concat(lines: seq<string>): string {
    if lines == [] then "" else lines[0] + Concat(lines[1..])
  }

  /** Width of the line boundary at the start of `s`: two for `"\r\n"`, one otherwise. */
  function BreakWidth(s: string): (w: nat)
    requires s != [] && IsLineBreak(s[0])
    ensures 0 < w <= |s|
  {
    if s[0] == '\r' && |s| > 1 && s[1] == '\n' then 2 else 1
  }

  /** `s.splitlines()`: the lines of `s` without their line boundaries; a final
      boundary does not start an extra empty line. */
  function SplitLines(s: string): (lines: seq<string>)
    ensures forall i :: 0 <= i < |lines| ==> NoLineBreak(lines[i])
    ensures s != [] <==> |lines| > 0
    decreases |s|
  {
    if s == [] then []
    else if IsLineBreak(s[0]) then [""] + SplitLines(s[BreakWidth(s)..])
    else
      var rest := SplitLines(s[1..]);
      if rest == [] then [[s[0]]] else [[s[0]] + rest[0]] + rest[1..]
  }

  /** `s.splitlines(keepends=True)`: the same lines, each with its boundary. */
  function SplitLinesKeepEnds(s: string): (lines: seq<string>)
    ensures s != [] <==> |lines| > 0
    decreases |s|
  {
    if s == [] then []
    else if IsLineBreak(s[0]) then [s[..BreakWidth(s)]] + SplitLinesKeepEnds(s[BreakWidth(s)..])
    else
      var rest := SplitLinesKeepEnds(s[1..]);
      if rest == [] then [[s[0]]] else [[s[0]] + rest[0]] + rest[1..]
  }

  /** Every line followed by `"\n"`, as a text file holds them. */
  function Terminated(lines: seq<string>): string {
    if lines == [] then "" else lines[0] + "\n" + Terminated(lines[1..])
  }

  /** Whether the last token of `a` and the first token of `b` run together
      when the two texts are joined with nothing between them. */
  predicate Fuses(a: string, b: string) {
    |a| > 0 && |b| > 0 && !IsSpace(a[|a| - 1]) && !IsSpace(b[0])
  }

  /** The tokens of two texts joined, given the tokens of each. */
  function Glued(ta: seq<string>, tb: seq<string>, fuse: bool): seq<string> {
    if fuse && |ta| > 0 && |tb| > 0 then ta[..|ta| - 1] + [ta[|ta| - 1] + tb[0]] + tb[1..]
    else ta + tb
  }
}
