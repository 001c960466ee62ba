/** The Python string built-ins the screens rely on: `str.isspace`, `str.splitlines()`,
    `str.split()` with no separator, `str.strip()`, `str.startswith`, `str.replace(pat, "")`
    and `sep.join(xs)`, each defined once and characterised by its contract and lemmas. */
module PyText {

  /** Python's `str.isspace()` for one character: the characters whose bidirectional type is
      WS, B or S, or whose category is Zs. Below U+0085 these are tab, line feed, vertical tab,
      form feed, carriage return, U+001C to U+001F and space. */
  predicate IsSpace(c: char) {
    if c < '\U{85}' then
      c == ' ' || ('\t' <= c <= '\r') || ('\U{1C}' <= c <= '\U{1F}')
    else
      || c == '\U{85}' || c == '\U{A0}' || c == '\U{1680}'
      || ('\U{2000}' <= c <= '\U{200A}')
      || c == '\U{2028}' || c == '\U{2029}' || c == '\U{202F}' || c == '\U{205F}' || c == '\U{3000}'
  }

  /** The line boundaries that `str.splitlines()` recognises ("\r\n" counts as one): line
      feed, vertical tab, form feed, carriage return, U+001C to U+001E, U+0085, U+2028, U+2029. */
  predicate IsLineBreak(c: char) {
    if c < '\U{85}' then
      ('\n' <= c <= '\r') || ('\U{1C}' <= c <= '\U{1E}')
    else
      c == '\U{85}' || c == '\U{2028}' || c == '\U{2029}'
  }

  predicate NoLineBreak(s: string) {
    forall i :: 0 <= i < |s| ==> !IsLineBreak(s[i])
  }

  predicate AllSpace(s: string) {
    forall i :: 0 <= i < |s| ==> IsSpace(s[i])
  }

  /** A token that `str.split()` can produce: non-empty and free of whitespace. */
  predicate IsWord(w: string) {
    w != [] && forall i :: 0 <= i < |w| ==> !IsSpace(w[i])
  }

  predicate StartsWith(s: string, prefix: string) {
    |prefix| <= |s| && s[..|prefix|] == prefix
  }

  // ---------------------------------------------------------------------------
  // str.split()

  /** Length of the longest whitespace-free prefix of `s`. */
  function WordLength(s: string): (n: nat)
    ensures n <= |s|
    ensures forall i :: 0 <= i < n ==> !IsSpace(s[i])
    ensures n < |s| ==> IsSpace(s[n])
  {
    if s == [] || IsSpace(s[0]) then 0 else 1 + WordLength(s[1..])
  }

  /** `s.split()`: the maximal runs of non-whitespace characters, in order. */
  function Split(s: string): (r: seq<string>)
    ensures forall i :: 0 <= i < |r| ==> IsWord(r[i])
    decreases |s|
  {
    if s == [] then []
    else if IsSpace(s[0]) then Split(s[1..])
    else
      var n := WordLength(s);
      [s[..n]] + Split(s[n..])
  }

  lemma {:induction false} WordLengthOfWord(w: string, t: string)
    requires forall i :: 0 <= i < |w| ==> !IsSpace(w[i])
    requires t == [] || IsSpace(t[0])
    ensures WordLength(w + t) == |w|
    decreases |w|
  {
    if w != [] {
      assert (w + t)[1..] == w[1..] + t;
      WordLengthOfWord(w[1..], t);
    }
  }

  /** A whitespace-free non-empty string splits to itself. */
  lemma SplitWord(w: string)
    requires IsWord(w)
    ensures Split(w) == [w]
  {
    WordLengthOfWord(w, []);
    assert w + [] == w;
    assert w[|w|..] == [];
  }

  /** A string made only of whitespace has no tokens. */
  lemma {:induction false} SplitAllSpace(s: string)
    requires AllSpace(s)
    ensures Split(s) == []
    decreases |s|
  {
    if s != [] {
      SplitAllSpace(s[1..]);
    }
  }

  /** A whitespace character is a token boundary: the tokens on either side are kept apart. */
  lemma {:induction false} SplitAround(a: string, c: char, b: string)
    requires IsSpace(c)
    ensures Split(a + [c] + b) == Split(a) + Split(b)
    decreases |a|
  {
    var s := a + [c] + b;
    if a == [] {
      assert s == [c] + b;
      assert s[1..] == b;
    } else if IsSpace(a[0]) {
      assert s[1..] == a[1..] + [c] + b;
      SplitAround(a[1..], c, b);
    } else {
      var n := WordLength(a);
      var k := WordLength(s);
      assert k == n by {
        assert forall i :: 0 <= i < n ==> s[i] == a[i];
        if n < |a| {
          assert s[n] == a[n];
        } else {
          assert s[n] == c;
        }
        WordLengthAgree(s, n);
      }
      assert s[..n] == a[..n];
      assert s[n..] == a[n..] + [c] + b;
      SplitAround(a[n..], c, b);
    }
  }

  /** WordLength is determined by where the first whitespace is. */
  lemma {:induction false} WordLengthAgree(s: string, n: nat)
    requires n <= |s|
    requires forall i :: 0 <= i < n ==> !IsSpace(s[i])
    requires n < |s| ==> IsSpace(s[n])
    ensures WordLength(s) == n
    decreases n
  {
    if n > 0 {
      WordLengthAgree(s[1..], n - 1);
    }
  }

  /** The common shape of the screens' command strings: words glued by one space. */
  lemma SplitSpaced(a: string, b: string)
    ensures Split(a + " " + b) == Split(a) + Split(b)
  {
    assert a + " " + b == a + [' '] + b;
    SplitAround(a, ' ', b);
  }

  /** A leading word followed by a space is the first token. */
  lemma SplitWordThen(w: string, rest: string)
    requires IsWord(w)
    ensures Split(w + " " + rest) == [w] + Split(rest)
  {
    SplitSpaced(w, rest);
    SplitWord(w);
  }

  /** Two leading words, each followed by a space, are the first two tokens. */
  lemma SplitTwoWordsThen(w1: string, w2: string, rest: string)
    requires IsWord(w1) && IsWord(w2)
    ensures Split(w1 + " " + w2 + " " + rest) == [w1, w2] + Split(rest)
  {
    assert w1 + " " + w2 + " " + rest == w1 + " " + (w2 + " " + rest);
    SplitWordThen(w1, w2 + " " + rest);
    SplitWordThen(w2, rest);
  }

  /** The same, with the two words and their spaces already written as one prefix. */
  lemma SplitWordsPrefix(w1: string, w2: string, prefix: string, rest: string)
    requires IsWord(w1) && IsWord(w2) && prefix == w1 + " " + w2 + " "
    ensures Split(prefix + rest) == [w1, w2] + Split(rest)
  {
    assert prefix + rest == w1 + " " + w2 + " " + rest;
    SplitTwoWordsThen(w1, w2, rest);
  }

  // ---------------------------------------------------------------------------
  // sep.join(xs)

  function Join(sep: string, xs: seq<string>): string
    decreases |xs|
  {
    if |xs| == 0 then ""
    else if |xs| == 1 then xs[0]
    else xs[0] + sep + Join(sep, xs[1..])
  }

  /** Splitting words joined by single spaces gives the words back. */
  lemma {:induction false} SplitJoin(ws: seq<string>)
    requires forall i :: 0 <= i < |ws| ==> IsWord(ws[i])
    ensures Split(Join(" ", ws)) == ws
    decreases |ws|
  {
    if |ws| == 1 {
      SplitWord(ws[0]);
    } else if |ws| > 1 {
      SplitJoin(ws[1..]);
      SplitWord(ws[0]);
      SplitSpaced(ws[0], Join(" ", ws[1..]));
      assert ws == [ws[0]] + ws[1..];
    }
  }

  // ---------------------------------------------------------------------------
  // str.splitlines()

  /** Length of the text before the first line boundary. */
  function LineLength(s: string): (n: nat)
    ensures n <= |s|
    ensures forall i :: 0 <= i < n ==> !IsLineBreak(s[i])
    ensures n < |s| ==> IsLineBreak(s[n])
  {
    if s == [] || IsLineBreak(s[0]) then 0 else 1 + LineLength(s[1..])
  }

  /** How many characters the boundary at `n` takes: two for "\r\n", else one. */
  function BreakWidth(s: string, n: nat): (w: nat)
    requires n < |s|
    ensures 1 <= w && n + w <= |s|
  {
    if s[n] == '\r' && n + 1 < |s| && s[n + 1] == '\n' then 2 else 1
  }

  /** `s.splitlines()`: the lines without their terminators; a final terminator does not
      start an extra empty line, and the empty string has no lines. */
  function SplitLines(s: string): (r: seq<string>)
    ensures forall i :: 0 <= i < |r| ==> NoLineBreak(r[i])
    ensures |r| <= |s|
    decreases |s|
  {
    if s == [] then []
    else
      var n := LineLength(s);
      if n == |s| then [s]
      else [s[..n]] + SplitLines(s[n + BreakWidth(s, n)..])
  }

  /** Text in which every line is followed by "\n", as a command-line tool prints it. */
  function Terminated(lines: seq<string>): string
    decreases |lines|
  {
    if lines == [] then "" else lines[0] + "\n" + Terminated(lines[1..])
  }

  lemma {:induction false} LineLengthAgree(s: string, n: nat)
    requires n <= |s|
    requires forall i :: 0 <= i < n ==> !IsLineBreak(s[i])
    requires n < |s| ==> IsLineBreak(s[n])
    ensures LineLength(s) == n
    decreases n
  {
    if n > 0 {
      LineLengthAgree(s[1..], n - 1);
    }
  }

  /** `splitlines` undoes newline termination: it returns exactly the lines printed. */
  lemma {:induction false} SplitLinesTerminated(lines: seq<string>)
    requires forall i :: 0 <= i < |lines| ==> NoLineBreak(lines[i])
    ensures SplitLines(Terminated(lines)) == lines
    decreases |lines|
  {
    if lines != [] {
      var l := lines[0];
      var rest := Terminated(lines[1..]);
      var s := Terminated(lines);
      assert s == l + "\n" + rest;
      assert forall i :: 0 <= i < |l| ==> s[i] == l[i];
      assert s[|l|] == '\n';
      LineLengthAgree(s, |l|);
      assert BreakWidth(s, |l|) == 1;
      assert s[..|l|] == l;
      assert s[|l| + 1..] == rest;
      SplitLinesTerminated(lines[1..]);
      assert lines == [l] + lines[1..];
    }
  }

  // ---------------------------------------------------------------------------
  // str.strip()

  function LStrip(s: string): (r: string)
    ensures |r| <= |s| && r == s[|s| - |r|..]
    ensures r == [] || !IsSpace(r[0])
    ensures forall i :: 0 <= i < |s| - |r| ==> IsSpace(s[i])
    decreases |s|
  {
    if s != [] && IsSpace(s[0]) then LStrip(s[1..]) else s
  }

  function RStrip(s: string): (r: string)
    ensures |r| <= |s| && r == s[..|r|]
    ensures r == [] || !IsSpace(r[|r| - 1])
    ensures forall i :: |r| <= i < |s| ==> IsSpace(s[i])
    decreases |s|
  {
    if s != [] && IsSpace(s[|s| - 1]) then RStrip(s[..|s| - 1]) else s
  }

  /** `s.strip()`: `s` without its leading and trailing whitespace. */
  function Strip(s: string): string {
    RStrip(LStrip(s))
  }

  /** What `strip` keeps: a slice of `s` with only whitespace cut away on either side. */
  lemma StripIsTrimmedSlice(s: string)
    ensures var r := Strip(s);
      exists i, j :: 0 <= i <= j <= |s| && r == s[i..j] && AllSpace(s[..i]) && AllSpace(s[j..])
  {
    var l := LStrip(s);
    var r := RStrip(l);
    var i := |s| - |l|;
    var j := i + |r|;
    LStripCutsSpace(s);
    RStripCutsSpace(l);
    assert l == s[i..];
    assert r == s[i..j] && s[j..] == l[|r|..];
  }

  lemma LStripCutsSpace(s: string)
    ensures AllSpace(s[..|s| - |LStrip(s)|])
  {
    var cut := s[..|s| - |LStrip(s)|];
    forall k | 0 <= k < |cut| ensures IsSpace(cut[k]) {
      assert cut[k] == s[k];
    }
  }

  lemma RStripCutsSpace(s: string)
    ensures AllSpace(s[|RStrip(s)|..])
  {
    var n := |RStrip(s)|;
    var cut := s[n..];
    forall k | 0 <= k < |cut| ensures IsSpace(cut[k]) {
      assert cut[k] == s[n + k];
    }
  }

  /** The result of `strip` neither begins nor ends with whitespace. */
  lemma StripEnds(s: string)
    ensures Strip(s) == [] || (!IsSpace(Strip(s)[0]) && !IsSpace(Strip(s)[|Strip(s)| - 1]))
  {
    var l := LStrip(s);
    var r := RStrip(l);
    if r != [] {
      assert r[0] == l[0];
    }
  }

  /** Gluing two whitespace-free strings gives a whitespace-free string. */
  lemma WordsGlue(a: string, b: string)
    requires IsWord(a) && IsWord(b)
    ensures IsWord(a + b)
  {
    forall i | 0 <= i < |a + b| ensures !IsSpace((a + b)[i]) {
      if i >= |a| {
        assert (a + b)[i] == b[i - |a|];
      }
    }
  }

  /** `strip` leaves the empty string exactly when `s` is all whitespace. */
  lemma StripEmpty(s: string)
    ensures Strip(s) == [] <==> AllSpace(s)
  {
    var l := LStrip(s);
    if Strip(s) == [] {
      assert l == [];
    }
  }

  /** Stripping twice is stripping once. */
  lemma StripIdempotent(s: string)
    ensures Strip(Strip(s)) == Strip(s)
  {
    StripEnds(s);
    StripFixed(Strip(s));
  }

  /** A string with no whitespace at either end is left as it is. */
  lemma StripFixed(r: string)
    requires r == [] || (!IsSpace(r[0]) && !IsSpace(r[|r| - 1]))
    ensures Strip(r) == r
  {
  }

  /** A token produced by `split` survives `strip` unchanged. */
  lemma StripWord(w: string)
    requires IsWord(w)
    ensures Strip(w) == w
  {
    StripFixed(w);
  }

  // ---------------------------------------------------------------------------
  // str.replace(pattern, "")

  predicate OccursAt(s: string, pat: string, i: int) {
    0 <= i && i + |pat| <= |s| && s[i..i + |pat|] == pat
  }

  ghost predicate Contains(s: string, pat: string) {
    exists i :: OccursAt(s, pat, i)
  }

  /** `s.replace(pat, "")`: every non-overlapping occurrence of `pat`, found left to right,
      is deleted. */
  function RemoveAll(s: string, pat: string): (r: string)
    requires pat != []
    ensures |r| <= |s|
    decreases |s|
  {
    if |s| < |pat| then s
    else if s[..|pat|] == pat then RemoveAll(s[|pat|..], pat)
    else [s[0]] + RemoveAll(s[1..], pat)
  }

  /** Text in which the pattern does not occur comes through `replace` unchanged. */
  lemma {:induction false} RemoveAllAbsent(s: string, pat: string)
    requires pat != []
    requires !Contains(s, pat)
    ensures RemoveAll(s, pat) == s
    decreases |s|
  {
    if |pat| <= |s| {
      assert !OccursAt(s, pat, 0);
      assert s[0..|pat|] == s[..|pat|];
      forall i | 0 <= i && i + |pat| <= |s| - 1 ensures !OccursAt(s[1..], pat, i) {
        assert s[1..][i..i + |pat|] == s[i + 1..i + 1 + |pat|];
        assert !OccursAt(s, pat, i + 1);
      }
      RemoveAllAbsent(s[1..], pat);
      assert s == [s[0]] + s[1..];
    }
  }

  /** A pattern whose first character does not appear in `s` does not occur in it. */
  lemma AbsentByFirstChar(s: string, pat: string)
    requires pat != []
    requires forall i :: 0 <= i < |s| ==> s[i] != pat[0]
    ensures !Contains(s, pat)
  {
    forall i | 0 <= i && i + |pat| <= |s| ensures !OccursAt(s, pat, i) {
      assert s[i..i + |pat|][0] == s[i];
    }
  }

  /** Removing the pattern from `pat + p`, where `p` does not contain it, gives back `p`. */
  lemma RemovePrefix(pat: string, p: string)
    requires pat != []
    requires !Contains(p, pat)
    ensures RemoveAll(pat + p, pat) == p
  {
    assert (pat + p)[..|pat|] == pat;
    assert (pat + p)[|pat|..] == p;
    RemoveAllAbsent(p, pat);
  }

  // ---------------------------------------------------------------------------
  // Slices, as the loops below walk them

  /** One more element of a prefix. */
  lemma TakeOneMore<T>(s: seq<T>, i: nat)
    requires i < |s|
    ensures s[..i + 1] == s[..i] + [s[i]]
  {
  }
}
