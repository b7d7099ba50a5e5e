/** Python `str` operations the agent relies on, with CPython's semantics:
    `find`, `count` and `replace` (including an empty pattern), `strip`,
    `lower` (as far as the agent needs it), `splitlines` with every line
    boundary Python recognises, `join`, slicing with negative indexes and
    `str(int)`. */
module PyText {

  // ---------------------------------------------------------------------------
  // Occurrences, find, count
  // ---------------------------------------------------------------------------

  /** `sub` occurs in `s` starting at index `i`. */
  predicate OccursAt(s: string, sub: string, i: int)
  {
    0 <= i && i + |sub| <= |s| && s[i..i + |sub|] == sub
  }

  /** An occurrence at `j + 1` in `s` is an occurrence at `j` in `s[1..]`. */
  lemma OccursShift(s: string, sub: string)
    requires s != []
    ensures forall j {:trigger OccursAt(s[1..], sub, j)} ::
      0 <= j ==> (OccursAt(s, sub, j + 1) <==> OccursAt(s[1..], sub, j))
  {
    forall j | 0 <= j
      ensures OccursAt(s, sub, j + 1) <==> OccursAt(s[1..], sub, j)
    {
      if j + 1 + |sub| <= |s| {
        assert s[1..][j..j + |sub|] == s[j + 1..j + 1 + |sub|];
      }
    }
  }

  /** `s.find(sub)`: the lowest index at which `sub` occurs, or -1. */
  function Find(s: string, sub: string): (r: int)
    ensures -1 <= r <= |s|
    ensures r >= 0 ==> OccursAt(s, sub, r)
    ensures forall j :: 0 <= j && (r < 0 || j < r) ==> !OccursAt(s, sub, j)
    decreases |s|
  {
    if |sub| > |s| then -1
    else if s[..|sub|] == sub then 0
    else
      var k := Find(s[1..], sub);
      OccursShift(s, sub);
      assert !OccursAt(s, sub, 0);
      assert forall j :: 1 <= j ==> (OccursAt(s, sub, j) <==> OccursAt(s[1..], sub, j - 1));
      if k < 0 then -1 else k + 1
  }

  /** `s.count(sub)` for a non-empty `sub`: non-overlapping occurrences,
      scanning from the left. */
  function CountNonEmpty(s: string, sub: string): nat
    requires sub != []
    decreases |s|
  {
    if |s| < |sub| then 0
    else if s[..|sub|] == sub then 1 + CountNonEmpty(s[|sub|..], sub)
    else CountNonEmpty(s[1..], sub)
  }

  /** `s.count(sub)`; Python counts the empty string `len(s) + 1` times. */
  function Count(s: string, sub: string): nat
  {
    if sub == [] then |s| + 1 else CountNonEmpty(s, sub)
  }

  /** No occurrence is counted exactly when `find` reports none. */
  lemma {:induction false} CountZeroIffAbsent(s: string, sub: string)
    ensures Count(s, sub) == 0 <==> Find(s, sub) == -1
    decreases |s|
  {
    if sub != [] && |s| >= |sub| && s[..|sub|] != sub {
      CountZeroIffAbsent(s[1..], sub);
    }
  }

  // ---------------------------------------------------------------------------
  // replace
  // ---------------------------------------------------------------------------

  /** `s.replace("", rep)`: `rep` before every character and at the end. */
  function InsertEverywhere(s: string, rep: string): string
    decreases |s|
  {
    if s == [] then rep else rep + [s[0]] + InsertEverywhere(s[1..], rep)
  }

  /** `s.replace(pat, rep)` for a non-empty `pat`: every non-overlapping
      occurrence, scanning from the left. */
  function ReplaceNonEmpty(s: string, pat: string, rep: string): string
    requires pat != []
    decreases |s|
  {
    if |s| < |pat| then s
    else if s[..|pat|] == pat then rep + ReplaceNonEmpty(s[|pat|..], pat, rep)
    else [s[0]] + ReplaceNonEmpty(s[1..], pat, rep)
  }

  /** `s.replace(pat, rep)`. */
  function ReplaceAll(s: string, pat: string, rep: string): string
  {
    if pat == [] then InsertEverywhere(s, rep) else ReplaceNonEmpty(s, pat, rep)
  }

  /** Replacing a pattern that does not occur leaves the text unchanged. */
  lemma {:induction false} ReplaceAbsent(s: string, pat: string, rep: string)
    requires pat != [] && Find(s, pat) == -1
    ensures ReplaceAll(s, pat, rep) == s
    decreases |s|
  {
    if |s| >= |pat| {
      assert s[..|pat|] != pat by { assert !OccursAt(s, pat, 0); }
      ReplaceAbsent(s[1..], pat, rep);
    }
  }

  /** When the pattern occurs exactly once, `replace` splices `rep` in at the
      index `find` reports and keeps everything around it. */
  lemma {:induction false} ReplaceOnce(s: string, pat: string, rep: string)
    requires Count(s, pat) == 1
    ensures 0 <= Find(s, pat) && Find(s, pat) + |pat| <= |s|
    ensures ReplaceAll(s, pat, rep) == s[..Find(s, pat)] + rep + s[Find(s, pat) + |pat|..]
    decreases |s|
  {
    if pat == [] {
      assert s == [];
    } else if |s| >= |pat| && s[..|pat|] == pat {
      var rest := s[|pat|..];
      assert Count(rest, pat) == 0;
      CountZeroIffAbsent(rest, pat);
      ReplaceAbsent(rest, pat, rep);
    } else {
      ReplaceOnceLater(s, pat, rep);
    }
  }

  /** The inductive step of ReplaceOnce: the occurrence is not at index 0. */
  lemma {:induction false} ReplaceOnceLater(s: string, pat: string, rep: string)
    requires pat != [] && Count(s, pat) == 1
    requires |s| < |pat| || s[..|pat|] != pat
    ensures 0 <= Find(s, pat) && Find(s, pat) + |pat| <= |s|
    ensures ReplaceAll(s, pat, rep) == s[..Find(s, pat)] + rep + s[Find(s, pat) + |pat|..]
    decreases |s|, 0
  {
    var t := s[1..];
    MissAtStart(s, pat, rep);
    ReplaceOnce(t, pat, rep);
    var k := Find(t, pat);
    calc {
      ReplaceAll(s, pat, rep);
      [s[0]] + ReplaceNonEmpty(t, pat, rep);
      [s[0]] + (t[..k] + rep + t[k + |pat|..]);
      { assert [s[0]] + t[..k] == s[..k + 1]; assert t[k + |pat|..] == s[k + 1 + |pat|..]; }
      s[..k + 1] + rep + s[k + 1 + |pat|..];
    }
  }

  /** A text with one occurrence, not at its start, has it in its tail. */
  lemma MissAtStart(s: string, pat: string, rep: string)
    requires pat != [] && Count(s, pat) == 1
    requires |s| < |pat| || s[..|pat|] != pat
    ensures s != [] && Count(s[1..], pat) == 1 && Find(s, pat) == Find(s[1..], pat) + 1
    ensures ReplaceAll(s, pat, rep) == [s[0]] + ReplaceNonEmpty(s[1..], pat, rep)
  {
    CountZeroIffAbsent(s[1..], pat);
  }

  /** A text that starts with the pattern loses that occurrence first. */
  lemma ReplaceLeading(pat: string, s: string, rep: string)
    requires pat != []
    ensures ReplaceAll(pat + s, pat, rep) == rep + ReplaceAll(s, pat, rep)
  {
    assert (pat + s)[..|pat|] == pat;
    assert (pat + s)[|pat|..] == s;
  }

  /** A prefix none of whose characters can start the pattern is kept. */
  lemma {:induction false} ReplaceSkipsPrefix(a: string, b: string, pat: string, rep: string)
    requires pat != [] && forall k :: 0 <= k < |a| ==> a[k] != pat[0]
    ensures ReplaceAll(a + b, pat, rep) == a + ReplaceAll(b, pat, rep)
    decreases |a|
  {
    if a != [] {
      var s := a + b;
      var rest := a[1..];
      assert s[0] == a[0] && s[1..] == rest + b;
      ReplaceSkipsChar(s, pat, rep);
      ReplaceSkipsPrefix(rest, b, pat, rep);
      calc {
        ReplaceAll(s, pat, rep);
        [a[0]] + ReplaceAll(rest + b, pat, rep);
        [a[0]] + (rest + ReplaceAll(b, pat, rep));
        { assert a == [a[0]] + rest; }
        a + ReplaceAll(b, pat, rep);
      }
    } else {
      assert a + b == b;
    }
  }

  /** A first character that cannot start the pattern is kept. */
  lemma ReplaceSkipsChar(s: string, pat: string, rep: string)
    requires pat != [] && s != [] && s[0] != pat[0]
    ensures ReplaceAll(s, pat, rep) == [s[0]] + ReplaceAll(s[1..], pat, rep)
  {
    if |s| < |pat| {
      assert ReplaceNonEmpty(s[1..], pat, rep) == s[1..];
      assert s == [s[0]] + s[1..];
    } else {
      assert s[..|pat|][0] != pat[0];
    }
  }

  /** Replacing one character by one character maps the text pointwise. */
  lemma {:induction false} ReplaceCharPointwise(s: string, a: char, b: char)
    ensures |ReplaceAll(s, [a], [b])| == |s|
    ensures forall i :: 0 <= i < |s| ==>
      ReplaceAll(s, [a], [b])[i] == (if s[i] == a then b else s[i])
    decreases |s|
  {
    if s != [] {
      ReplaceCharPointwise(s[1..], a, b);
      assert s[..1] == [s[0]];
    }
  }

  // ---------------------------------------------------------------------------
  // strip
  // ---------------------------------------------------------------------------

  /** The number of leading characters of `s` that are in `cs`. */
  function LeadingIn(s: string, cs: set<char>): (n: nat)
    ensures n <= |s|
    ensures forall k :: 0 <= k < n ==> s[k] in cs
    ensures n < |s| ==> s[n] !in cs
    decreases |s|
  {
    if s != [] && s[0] in cs then 1 + LeadingIn(s[1..], cs) else 0
  }

  /** The number of trailing characters of `s` that are in `cs`. */
  function TrailingIn(s: string, cs: set<char>): (n: nat)
    ensures n <= |s|
    ensures forall k :: |s| - n <= k < |s| ==> s[k] in cs
    ensures n < |s| ==> s[|s| - 1 - n] !in cs
    decreases |s|
  {
    if s != [] && s[|s| - 1] in cs then 1 + TrailingIn(s[..|s| - 1], cs) else 0
  }

  /** `t` is a contiguous piece of `s`. */
  ghost predicate IsSlice(t: string, s: string)
  {
    exists i, j :: 0 <= i <= j <= |s| && t == s[i..j]
  }

  lemma IsSliceTrans(u: string, t: string, s: string)
    requires IsSlice(u, t) && IsSlice(t, s)
    ensures IsSlice(u, s)
  {
    var i, j :| 0 <= i <= j <= |t| && u == t[i..j];
    var i', j' :| 0 <= i' <= j' <= |s| && t == s[i'..j'];
    assert i' + j <= j';
    assert |t[i..j]| == |s[i' + i..i' + j]|;
    forall k | 0 <= k < j - i
      ensures t[i..j][k] == s[i' + i..i' + j][k]
    {
      assert t[i..j][k] == t[i + k] == s[i' + i + k];
    }
    assert t[i..j] == s[i' + i..i' + j];
  }

  /** `s.strip(chars)`: drop characters in `cs` from both ends. */
  function Strip(s: string, cs: set<char>): (r: string)
    ensures IsSlice(r, s)
    ensures r != [] ==> r[0] !in cs && r[|r| - 1] !in cs
    ensures (s == [] || (s[0] !in cs && s[|s| - 1] !in cs)) ==> r == s
  {
    var a := LeadingIn(s, cs);
    var t := s[a..];
    var b := TrailingIn(t, cs);
    assert t[..|t| - b] == s[a..|s| - b];
    assert s[..] == s;
    t[..|t| - b]
  }

  /** Stripping `a + m + b`, where `a` and `b` consist of stripped characters
      and `m` neither starts nor ends with one, leaves exactly `m`. */
  lemma StripBetween(a: string, m: string, b: string, cs: set<char>)
    requires forall k :: 0 <= k < |a| ==> a[k] in cs
    requires forall k :: 0 <= k < |b| ==> b[k] in cs
    requires m != [] && m[0] !in cs && m[|m| - 1] !in cs
    ensures Strip(a + m + b, cs) == m
  {
    var s := a + m + b;
    assert s[|a|] == m[0];
    assert forall k :: 0 <= k < |a| ==> s[k] == a[k];
    var n := LeadingIn(s, cs);
    assert n == |a|;
    var t := s[n..];
    assert t == m + b;
    assert t[|m| - 1] == m[|m| - 1];
    assert forall k :: |m| <= k < |t| ==> t[k] == b[k - |m|];
    assert TrailingIn(t, cs) == |b|;
    assert t[..|t| - |b|] == m;
  }

  /** Every character of `s` is in `cs` exactly when stripping empties it. */
  lemma StripEmptyIff(s: string, cs: set<char>)
    ensures Strip(s, cs) == [] <==> forall k :: 0 <= k < |s| ==> s[k] in cs
  {
    var a := LeadingIn(s, cs);
    if forall k :: 0 <= k < |s| ==> s[k] in cs {
      assert a == |s|;
    }
  }

  /** The characters for which Python's `str.isspace()` holds; the argument-less
      `str.strip()` removes exactly these. */
  const Whitespace: set<char> :=
    {'\t', '\n', '\U{000B}', '\U{000C}', '\r', '\U{001C}', '\U{001D}', '\U{001E}',
     '\U{001F}', ' ', '\U{0085}', '\U{00A0}', '\U{1680}', '\U{2000}', '\U{2001}',
     '\U{2002}', '\U{2003}', '\U{2004}', '\U{2005}', '\U{2006}', '\U{2007}',
     '\U{2008}', '\U{2009}', '\U{200A}', '\U{2028}', '\U{2029}', '\U{202F}',
     '\U{205F}', '\U{3000}'}

  /** `not s.strip()`: the text holds nothing but whitespace. */
  predicate IsBlank(s: string)
  {
    Strip(s, Whitespace) == []
  }

  // ---------------------------------------------------------------------------
  // lower
  // ---------------------------------------------------------------------------

  /** Lower-cases the ASCII letters. Python's `str.lower()` also maps other
      letters; only two of them land in ASCII: the Kelvin sign U+212A becomes
      `k`, and U+0130 becomes `i` followed by the combining dot U+0307. A
      comparison of the lowered text with `submit` is therefore decided the
      same way as here: `submit` has no `k`, and a name holding the dotted
      capital I lowers to a text with U+0307 in it in Python, and keeps the
      U+0130 here, so it equals `submit` in neither. */
  function AsciiLower(s: string): (r: string)
    ensures |r| == |s|
    ensures forall i :: 0 <= i < |s| && !('A' <= s[i] <= 'Z') ==> r[i] == s[i]
    ensures forall i :: 0 <= i < |s| && 'A' <= s[i] <= 'Z' ==> r[i] as int == s[i] as int + 32
  {
    seq(|s|, i requires 0 <= i < |s| =>
      if 'A' <= s[i] <= 'Z' then (s[i] as int + 32) as char else s[i])
  }

  // ---------------------------------------------------------------------------
  // text-mode files
  // ---------------------------------------------------------------------------

  /** Reading a file in text mode with universal newlines: `"\r\n"` and a
      lone `"\r"` both arrive as `"\n"`. */
  function UniversalNewlines(s: string): (r: string)
    ensures '\r' !in r
    ensures |r| <= |s|
    ensures '\r' !in s ==> r == s
    decreases |s|
  {
    if s == [] then []
    else if s[0] == '\r' then "\n" + UniversalNewlines(if |s| > 1 && s[1] == '\n' then s[2..] else s[1..])
    else [s[0]] + UniversalNewlines(s[1..])
  }

  /** A prefix without `"\r"` passes through unchanged. */
  lemma {:induction false} UniversalNewlinesPrefix(a: string, t: string)
    requires forall k :: 0 <= k < |a| ==> a[k] != '\r'
    ensures UniversalNewlines(a + t) == a + UniversalNewlines(t)
    decreases |a|
  {
    if a == [] {
      assert a + t == t;
    } else {
      var rest := a[1..];
      calc {
        UniversalNewlines(a + t);
        { assert a + t == [a[0]] + (rest + t); }
        UniversalNewlines([a[0]] + (rest + t));
        { UniversalNewlinesCons(a[0], rest + t); }
        [a[0]] + UniversalNewlines(rest + t);
        { UniversalNewlinesPrefix(rest, t); }
        [a[0]] + (rest + UniversalNewlines(t));
        { assert a == [a[0]] + rest; }
        a + UniversalNewlines(t);
      }
    }
  }

  lemma UniversalNewlinesCons(c: char, u: string)
    requires c != '\r'
    ensures UniversalNewlines([c] + u) == [c] + UniversalNewlines(u)
  {
    assert ([c] + u)[1..] == u;
  }

  /** `"\r\n"` becomes one `"\n"`; the text before it is kept. */
  lemma UniversalNewlinesAtCrLf(a: string, b: string)
    requires '\r' !in a
    ensures UniversalNewlines(a + "\r\n" + b) == a + "\n" + UniversalNewlines(b)
  {
    var t := "\r\n" + b;
    UniversalNewlinesPrefix(a, t);
    assert a + "\r\n" + b == a + t;
    assert t[0] == '\r' && t[1] == '\n' && t[2..] == b;
    assert UniversalNewlines(t) == "\n" + UniversalNewlines(b);
  }

  /** So does a `"\r"` that is not followed by `"\n"`. */
  lemma UniversalNewlinesAtCr(a: string, b: string)
    requires '\r' !in a && (b == [] || b[0] != '\n')
    ensures UniversalNewlines(a + "\r" + b) == a + "\n" + UniversalNewlines(b)
  {
    var t := "\r" + b;
    UniversalNewlinesPrefix(a, t);
    assert a + "\r" + b == a + t;
    assert t[0] == '\r' && t[1..] == b;
    assert UniversalNewlines(t) == "\n" + UniversalNewlines(b);
  }

  // ---------------------------------------------------------------------------
  // splitlines and join
  // ---------------------------------------------------------------------------

  /** The line boundaries of `str.splitlines()`. */
  const LineBreaks: set<char> :=
    {'\n', '\r', '\U{000B}', '\U{000C}', '\U{001C}', '\U{001D}', '\U{001E}',
     '\U{0085}', '\U{2028}', '\U{2029}'}

  /** Index of the first line boundary in `s`, or `|s|`. */
  function FirstBreak(s: string): (i: nat)
    ensures i <= |s|
    ensures i < |s| ==> s[i] in LineBreaks
    ensures forall k :: 0 <= k < i ==> s[k] !in LineBreaks
    decreases |s|
  {
    if s == [] || s[0] in LineBreaks then 0 else 1 + FirstBreak(s[1..])
  }

  /** `s.splitlines()`: the lines, without their boundaries; `"\r\n"` is one
      boundary, and a final boundary does not open an empty last line. */
  function SplitLines(s: string): (lines: seq<string>)
    ensures |lines| <= |s|
    ensures forall k, c :: 0 <= k < |lines| && c in lines[k] ==> c !in LineBreaks
    decreases |s|
  {
    if s == [] then []
    else
      var i := FirstBreak(s);
      if i == |s| then [s]
      else
        var width := if s[i] == '\r' && i + 1 < |s| && s[i + 1] == '\n' then 2 else 1;
        [s[..i]] + SplitLines(s[i + width..])
  }

  /** A text with no line boundary in it. */
  predicate OneLine(s: string)
  {
    forall k :: 0 <= k < |s| ==> s[k] !in LineBreaks
  }

  /** The first boundary after a boundary-free prefix is the one right
      after it. */
  lemma FirstBreakAfter(a: string, c: char, b: string)
    requires OneLine(a) && c in LineBreaks
    ensures FirstBreak(a + [c] + b) == |a|
  {
    var s := a + [c] + b;
    assert s[|a|] == c;
  }

  /** A non-empty text without boundaries is one line. */
  lemma SplitLinesSingle(s: string)
    requires s != [] && OneLine(s)
    ensures SplitLines(s) == [s]
  {
    assert FirstBreak(s) == |s|;
  }

  /** A boundary-free line followed by a boundary other than a `"\r"`
      before `"\n"` is the first line; the rest is split on its own. */
  lemma SplitLinesAt(a: string, c: char, b: string)
    requires OneLine(a) && c in LineBreaks && (c != '\r' || b == [] || b[0] != '\n')
    ensures SplitLines(a + [c] + b) == [a] + SplitLines(b)
  {
    var s := a + [c] + b;
    FirstBreakAfter(a, c, b);
    assert s[..|a|] == a && s[|a|] == c && s[|a| + 1..] == b;
  }

  /** `"\r\n"` after a boundary-free line is a single boundary. */
  lemma SplitLinesAtCrLf(a: string, b: string)
    requires OneLine(a)
    ensures SplitLines(a + "\r\n" + b) == [a] + SplitLines(b)
  {
    var s := a + "\r\n" + b;
    assert s == a + ['\r'] + (['\n'] + b);
    FirstBreakAfter(a, '\r', ['\n'] + b);
    assert s[..|a|] == a && s[|a|] == '\r' && s[|a| + 1] == '\n' && s[|a| + 2..] == b;
  }

  /** `splitlines` undoes `"\n".join` of boundary-free lines, as long as
      the last line is not empty (a final empty line would leave only a
      trailing `"\n"`, which opens no line). */
  lemma {:induction false} SplitLinesOfJoin(lines: seq<string>)
    requires forall k :: 0 <= k < |lines| ==> OneLine(lines[k])
    requires lines != [] ==> lines[|lines| - 1] != []
    ensures SplitLines(Join("\n", lines)) == lines
    decreases |lines|
  {
    if |lines| == 1 {
      SplitLinesSingle(lines[0]);
    } else if |lines| > 1 {
      SplitLinesOfJoin(lines[1..]);
      SplitLinesAt(lines[0], '\n', Join("\n", lines[1..]));
      assert lines == [lines[0]] + lines[1..];
    }
  }

  /** Reading in text mode does not change the lines `splitlines` sees:
      `"\r\n"` and `"\r"` are boundaries to it as much as `"\n"` is. */
  lemma {:induction false} SplitLinesUniversal(s: string)
    ensures SplitLines(UniversalNewlines(s)) == SplitLines(s)
    decreases |s|
  {
    if s != [] && FirstBreak(s) < |s| {
      var i := FirstBreak(s);
      var w := BreakWidth(s, i);
      SplitLinesUniversal(s[i + w..]);
      UniversalStepAt(s, i, w);
    } else if s != [] {
      assert OneLine(s);
    }
  }

  /** How many characters the boundary at `i` takes: 2 for `"\r\n"`. */
  function BreakWidth(s: string, i: nat): (w: nat)
    requires i < |s|
    ensures 1 <= w <= 2 && i + w <= |s|
  {
    if s[i] == '\r' && i + 1 < |s| && s[i + 1] == '\n' then 2 else 1
  }

  lemma UniversalStepAt(s: string, i: nat, w: nat)
    requires i == FirstBreak(s) < |s| && w == BreakWidth(s, i)
    requires SplitLines(UniversalNewlines(s[i + w..])) == SplitLines(s[i + w..])
    ensures SplitLines(UniversalNewlines(s)) == SplitLines(s)
  {
    var a := s[..i];
    var b := s[i + w..];
    assert OneLine(a);
    if w == 2 {
      SplitAround(s, i, w);
      UniversalCrLfStep(a, b);
    } else {
      SplitAround(s, i, w);
      assert b != [] ==> b[0] == s[i + 1];
      UniversalBreakStep(a, s[i], b);
    }
  }

  lemma SplitAround(s: string, i: nat, w: nat)
    requires 1 <= w <= 2 && i + w <= |s|
    ensures w == 1 ==> s == s[..i] + [s[i]] + s[i + 1..]
    ensures w == 2 ==> s == s[..i] + [s[i], s[i + 1]] + s[i + 2..]
  {
  }

  lemma UniversalCrLfStep(a: string, b: string)
    requires OneLine(a) && SplitLines(UniversalNewlines(b)) == SplitLines(b)
    ensures SplitLines(UniversalNewlines(a + "\r\n" + b)) == SplitLines(a + "\r\n" + b)
  {
    UniversalNewlinesAtCrLf(a, b);
    assert a + "\n" + UniversalNewlines(b) == a + ['\n'] + UniversalNewlines(b);
    SplitLinesAt(a, '\n', UniversalNewlines(b));
    SplitLinesAtCrLf(a, b);
  }

  lemma UniversalBreakStep(a: string, c: char, b: string)
    requires OneLine(a) && c in LineBreaks && (c != '\r' || b == [] || b[0] != '\n')
    requires SplitLines(UniversalNewlines(b)) == SplitLines(b)
    ensures SplitLines(UniversalNewlines(a + [c] + b)) == SplitLines(a + [c] + b)
  {
    SplitLinesAt(a, c, b);
    if c == '\r' {
      UniversalNewlinesAtCr(a, b);
      assert a + "\r" + b == a + [c] + b;
      assert a + "\n" + UniversalNewlines(b) == a + ['\n'] + UniversalNewlines(b);
      SplitLinesAt(a, '\n', UniversalNewlines(b));
    } else {
      UniversalNewlinesPrefix(a + [c], b);
      SplitLinesAt(a, c, UniversalNewlines(b));
    }
  }

  /** `sep.join(parts)`. */
  function Join(sep: string, parts: seq<string>): string
    decreases |parts|
  {
    if parts == [] then []
    else if |parts| == 1 then parts[0]
    else parts[0] + sep + Join(sep, parts[1..])
  }

  /** A join of non-empty parts never ends with the separator's last
      character unless the last part does. */
  lemma {:induction false} JoinEnds(sep: string, parts: seq<string>)
    requires parts != [] && parts[|parts| - 1] != []
    ensures Join(sep, parts) != []
    ensures Join(sep, parts)[|Join(sep, parts)| - 1] == parts[|parts| - 1][|parts[|parts| - 1]| - 1]
    decreases |parts|
  {
    if |parts| > 1 {
      JoinEnds(sep, parts[1..]);
    }
  }

  // ---------------------------------------------------------------------------
  // Slicing and numbers
  // ---------------------------------------------------------------------------

  /** Python's normalisation of a slice bound against a length `n`. */
  function SliceBound(x: int, n: nat): (b: nat)
    ensures b <= n
    ensures 0 <= x <= n ==> b == x
    ensures x < 0 && x + n >= 0 ==> b == x + n
  {
    if x < 0 then (if x + n < 0 then 0 else x + n) else (if x > n then n else x)
  }

  /** `s[i:j]` with Python's rules for negative and out-of-range bounds. */
  function PySlice<T>(s: seq<T>, i: int, j: int): (r: seq<T>)
    ensures |r| <= |s|
    ensures 0 <= i <= j <= |s| ==> r == s[i..j]
    ensures j <= i && (0 <= j || i < 0) && (i <= |s| || 0 <= j) && i * j >= 0 ==> r == []
  {
    var a := SliceBound(i, |s|);
    var b := SliceBound(j, |s|);
    if a < b then s[a..b] else []
  }

  function Max(a: int, b: int): int
  {
    if a >= b then a else b
  }

  function Min(a: int, b: int): int
  {
    if a <= b then a else b
  }

  function DigitChar(d: nat): char
    requires d < 10
  {
    "0123456789"[d]
  }

  /** `str(n)` for a natural number: its decimal digits. */
  function NatToString(n: nat): (r: string)
    ensures r != []
    ensures forall k :: 0 <= k < |r| ==> '0' <= r[k] <= '9'
    decreases n
  {
    if n < 10 then [DigitChar(n)] else NatToString(n / 10) + [DigitChar(n % 10)]
  }

  /** `str(n)`. */
  function IntToString(n: int): (r: string)
    ensures r != []
    ensures r[0] == '-' <==> n < 0
    ensures forall k :: 0 <= k < |r| ==> r[k] == '-' || '0' <= r[k] <= '9'
  {
    if n < 0 then "-" + NatToString(-n) else NatToString(n)
  }

  /** `[f"{i + base}|{line}" for i, line in enumerate(lines)]`. */
  function Numbered(lines: seq<string>, base: int): (r: seq<string>)
    ensures |r| == |lines|
    ensures forall k :: 0 <= k < |lines| ==> r[k] == IntToString(base + k) + "|" + lines[k]
  {
    seq(|lines|, k requires 0 <= k < |lines| => IntToString(base + k) + "|" + lines[k])
  }

  /** A numbered line reads back: the text before its first `|` is the
      number, the text after it is the original line. */
  lemma NumberedReadBack(lines: seq<string>, base: int, k: nat)
    requires k < |lines|
    ensures var r := Numbered(lines, base);
            var i := Find(r[k], "|");
            i == |IntToString(base + k)| && r[k][..i] == IntToString(base + k) && r[k][i + 1..] == lines[k]
  {
    var num := IntToString(base + k);
    var line := Numbered(lines, base)[k];
    assert line == num + "|" + lines[k];
    assert line[|num|..|num| + 1] == "|";
    assert OccursAt(line, "|", |num|);
    assert forall j :: 0 <= j < |num| ==> line[j] == num[j];
    assert line[..|num|] == num && line[|num| + 1..] == lines[k];
  }
}
