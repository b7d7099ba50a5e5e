/** `view` of mnt/read.py: show a file's lines, or a 1-based range of them,
    each prefixed with its number. */
module MntRead {
  import opened Wrappers
  import opened PyText
  import opened MntFiles

  /** The value argparse gives `--start` and `--end` when they are absent. */
  const Unset := -1

  function NotFound(path: string): string
  {
    path + " not found"
  }

  function TooFarMessage(lines: nat): string
  {
    "start line number > max line number. there are " + IntToString(lines) + " lines in the file."
  }

  /** `view(path, start, end)`; `Raised` when the path exists but cannot be
      read as a utf-8 text file (a directory, no permission, bad bytes). */
  function View(fs: Fs, path: string, start: int, end: int): (r: Outcome<string>)
    ensures path !in fs ==> r == Done(NotFound(path))
    ensures r.Raised? <==> path in fs && !fs[path].File?
  {
    if path !in fs then Done(NotFound(path))
    else if !fs[path].File? then Raised
    else
      var lines := SplitLines(UniversalNewlines(fs[path].raw));
      if start > |lines| then Done(TooFarMessage(|lines|))
      else if 0 <= start <= end then Done(Join("\n", Numbered(PySlice(lines, start - 1, end), start)))
      else Done(Join("\n", Numbered(lines, 1)))
  }

  /** The lines of a file as `view` splits them. */
  function LinesOf(fs: Fs, path: string): seq<string>
    requires path in fs && fs[path].File?
  {
    SplitLines(UniversalNewlines(fs[path].raw))
  }

  /** A start past the last line reports the line count and shows nothing. */
  lemma ViewStartTooFar(fs: Fs, path: string, start: int, end: int)
    requires path in fs && fs[path].File? && start > |LinesOf(fs, path)|
    ensures View(fs, path, start, end) == Done(TooFarMessage(|LinesOf(fs, path)|))
  {
  }

  /** For `1 <= start <= end` the lines `start .. min(end, n)` are shown,
      numbered from `start`: at most `end - start + 1` of them. */
  lemma ViewRange(fs: Fs, path: string, start: int, end: int)
    requires path in fs && fs[path].File?
    requires 1 <= start <= end && start <= |LinesOf(fs, path)|
    ensures var lines := LinesOf(fs, path);
            var shown := lines[start - 1..Min(end, |lines|)];
            |shown| <= end - start + 1
            && View(fs, path, start, end) == Done(Join("\n", Numbered(shown, start)))
  {
    var lines := LinesOf(fs, path);
    assert PySlice(lines, start - 1, end) == lines[start - 1..Min(end, |lines|)];
  }

  /** With `start = 0 <= end` the slice begins at index -1, so only the last
      line can be shown, and it is numbered 0. */
  lemma ViewStartZero(fs: Fs, path: string, end: int)
    requires path in fs && fs[path].File? && 0 <= end
    ensures var lines := LinesOf(fs, path);
            var n := |lines|;
            View(fs, path, 0, end)
            == Done(Join("\n", Numbered(if n > 0 && end >= n then [lines[n - 1]] else [], 0)))
  {
    var lines := LinesOf(fs, path);
    var n := |lines|;
    if n > 0 && end >= n {
      assert PySlice(lines, -1, end) == lines[n - 1..n] == [lines[n - 1]];
    } else {
      assert PySlice(lines, -1, end) == [];
    }
  }

  /** Without a usable range (the -1 defaults, or `start > end`) the whole
      file is shown, numbered from 1. */
  lemma ViewWholeFile(fs: Fs, path: string, start: int, end: int)
    requires path in fs && fs[path].File? && start <= |LinesOf(fs, path)|
    requires start < 0 || start > end
    ensures View(fs, path, start, end) == Done(Join("\n", Numbered(LinesOf(fs, path), 1)))
  {
  }

  /** Asking for lines 1 to n of an n-line file is the same as asking for
      nothing. */
  lemma ViewFullRangeIsDefault(fs: Fs, path: string)
    requires path in fs && fs[path].File? && |LinesOf(fs, path)| >= 1
    ensures View(fs, path, 1, |LinesOf(fs, path)|) == View(fs, path, Unset, Unset)
  {
    var lines := LinesOf(fs, path);
    assert PySlice(lines, 0, |lines|) == lines;
  }

  /** The numbered listing never ends with a newline when the last line
      holds none. */
  lemma NumberedJoinNoTrailingNewline(lines: seq<string>, base: int)
    requires lines != [] ==> '\n' !in lines[|lines| - 1]
    ensures var out := Join("\n", Numbered(lines, base));
            out != [] ==> out[|out| - 1] != '\n'
  {
    var parts := Numbered(lines, base);
    if parts != [] {
      NumberedLineEnd(IntToString(base + |lines| - 1), lines[|lines| - 1]);
      JoinEnds("\n", parts);
    }
  }

  /** A numbered line `n|line` ends in `|` or in the line's last character. */
  lemma NumberedLineEnd(n: string, line: string)
    requires '\n' !in line
    ensures var l := n + "|" + line; l != [] && l[|l| - 1] != '\n'
  {
    var l := n + "|" + line;
    if line == [] {
      assert l[|l| - 1] == '|';
    } else {
      assert l[|l| - 1] == line[|line| - 1];
    }
  }

  /** Every listing `view` produces on a readable file is a `"\n"`-joined
      sequence of numbered lines without a trailing newline. */
  lemma ViewNoTrailingNewline(fs: Fs, path: string, start: int, end: int)
    requires path in fs && fs[path].File? && start <= |LinesOf(fs, path)|
    ensures View(fs, path, start, end).Done?
    ensures var out := View(fs, path, start, end).value;
            out != [] ==> out[|out| - 1] != '\n'
  {
    var lines := LinesOf(fs, path);
    if 0 <= start <= end {
      var shown := PySlice(lines, start - 1, end);
      if shown != [] {
        assert shown[|shown| - 1] in lines;
      }
      NumberedJoinNoTrailingNewline(shown, start);
    } else {
      NumberedJoinNoTrailingNewline(lines, 1);
    }
  }
}
