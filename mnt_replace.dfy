/** `string_replace` of mnt/replace.py: replace the unique occurrence of
    `old_string` in a sandbox file and show a numbered window of the new
    content around the first occurrence of `new_string`. */
module MntReplace {
  import opened Wrappers
  import opened PyText
  import opened Sandbox
  import opened MntFiles

  const SuccessHeader := "string replace successful, " + "new file content:\n"
  const MultipleMatches := "old_string has multiple matches "
    + "in the target file, so string replace is not performed. your old_string should have a wider span to be more specific."
  const NoMatch := "old_string not found in the target file."

  /** Lines of context shown before and after the new text. */
  const Context := 15

  const NotAFileNote := " is not found or is directory. If is directory, string_replace is to edit file."
  const ReadFailureNote := "\nPath not found or is directory or you do not have permission. If is directory, string_replace is to edit file. If you do not have permission please run shell commands to change permission."

  function NotAFile(path: string): string
  {
    path + NotAFileNote
  }

  /** `error` stands for the exception text and its formatted traceback. */
  function ReadFailure(error: string): string
  {
    error + ReadFailureNote
  }

  predicate HasPrefix(s: string, p: string)
  {
    |p| <= |s| && s[..|p|] == p
  }

  /** The displayed line range `[first, last)` of the new content. */
  datatype Span = Span(first: nat, last: int)

  /** The window: `Context` lines before the lines of the first occurrence
      of `rep` in `content`, those lines, and `Context` lines after. */
  function WindowSpan(content: string, rep: string): Span
  {
    var start := Find(content, rep);
    var end := start + |rep|;
    var pre := SplitLines(PySlice(content, 0, start));
    var med := SplitLines(rep);
    var post := if end < |content| then SplitLines(PySlice(content, end, |content|)) else [];
    Span(Max(|pre| - Context, 0), Min(|pre| + |med| + Context, |pre| + |med| + |post|))
  }

  /** The numbered lines shown after a successful edit. */
  function Display(content: string, rep: string): seq<string>
  {
    var w := WindowSpan(content, rep);
    Numbered(PySlice(SplitLines(content), w.first, w.last), w.first + 1)
  }

  /** Which message `string_replace` returns; `Text` spells it out. */
  datatype Reply =
    | NotAFileReply(path: string)
    | ReadFailureReply(error: string)
    | MultipleReply
    | NoMatchReply
    | Replaced(content: string, rep: string)

  function Text(r: Reply): string
  {
    match r
    case NotAFileReply(path) => NotAFile(path)
    case ReadFailureReply(error) => ReadFailure(error)
    case MultipleReply => MultipleMatches
    case NoMatchReply => NoMatch
    case Replaced(content, rep) => SuccessHeader + Join("\n", Display(content, rep))
  }

  /** The reply and the sandbox file system afterwards. */
  datatype Edit = Edit(reply: Reply, fs: Fs)

  /** How a file's text passes between the disk and the script: in text
      mode on a platform (line endings translated both ways), or byte for
      byte. */
  datatype Mode = TextMode(platform: Platform) | Exact

  function Load(m: Mode, raw: string): string
  {
    if m.TextMode? then UniversalNewlines(raw) else raw
  }

  function Store(m: Mode, text: string): string
  {
    if m.TextMode? then WriteText(text, m.platform) else text
  }

  /** The text with `rep` in place of the first occurrence of `pat`, and
      everything before and after that occurrence kept. */
  function SpliceFirst(s: string, pat: string, rep: string): string
  {
    var i := Find(s, pat);
    if i < 0 then s else s[..i] + rep + s[i + |pat|..]
  }

  /** What the count decides about the file's text. */
  datatype TextEdit = Several | Absent | Edited(updated: string)

  function EditText(content: string, pat: string, rep: string): (e: TextEdit)
    ensures e.Several? <==> Count(content, pat) > 1
    ensures e.Absent? <==> Count(content, pat) == 0
  {
    var matches := Count(content, pat);
    if matches > 1 then Several
    else if matches == 0 then Absent
    else Edited(ReplaceAll(content, pat, rep))
  }

  /** A unique match is replaced in place: the new text is the old one with
      `rep` spliced in at the match. */
  lemma EditTextSplice(content: string, pat: string, rep: string)
    requires Count(content, pat) == 1
    ensures 0 <= Find(content, pat)
    ensures EditText(content, pat, rep) == Edited(SpliceFirst(content, pat, rep))
  {
    ReplaceOnce(content, pat, rep);
  }

  /** `string_replace`, with the file read and written in mode `m`. Opening
      a read-only file for writing raises, and the exception ends the script
      before it writes any reply. */
  function ReplaceWith(fs: Fs, m: Mode, path: string, pat: string, rep: string): (r: Outcome<Edit>)
    ensures r.Raised? <==> path in fs && fs[path].File? && !fs[path].writable
                           && EditText(Load(m, fs[path].raw), pat, rep).Edited?
    ensures r.Done? ==> forall q :: q in r.value.fs <==> q in fs
    ensures r.Done? ==> forall q :: q in fs && q != path ==> r.value.fs[q] == fs[q]
    ensures r.Done? ==> r.value.fs == fs
                        || (path in fs && fs[path].File? && fs[path].writable && EditText(Load(m, fs[path].raw), pat, rep).Edited?)
  {
    if path !in fs || fs[path].Directory? then Done(Edit(NotAFileReply(path), fs))
    else if fs[path].Unreadable? then Done(Edit(ReadFailureReply(fs[path].error), fs))
    else
      match EditText(Load(m, fs[path].raw), pat, rep)
      case Several => Done(Edit(MultipleReply, fs))
      case Absent => Done(Edit(NoMatchReply, fs))
      case Edited(updated) =>
        if fs[path].writable then Done(Edit(Replaced(updated, rep), fs[path := File(Store(m, updated), true)]))
        else Raised
  }

  /** `string_replace` as the script runs it: the file is read and written in
      text mode, so its line endings are translated both ways. */
  function StringReplace(fs: Fs, p: Platform, path: string, pat: string, rep: string): (r: Outcome<Edit>)
    ensures r.Raised? <==> path in fs && fs[path].File? && !fs[path].writable && Count(UniversalNewlines(fs[path].raw), pat) == 1
    ensures r.Done? ==> forall q :: q in r.value.fs <==> q in fs
    ensures r.Done? ==> r.value.fs == fs
                        || (path in fs && fs[path].File? && fs[path].writable && Count(UniversalNewlines(fs[path].raw), pat) == 1)
  {
    ReplaceWith(fs, TextMode(p), path, pat, rep)
  }

  /** The three refusals: not a regular file, several matches, no match.
      Each returns its message and writes nothing. */
  lemma StringReplaceRefusals(fs: Fs, p: Platform, path: string, pat: string, rep: string)
    ensures path !in fs || fs[path].Directory? ==> StringReplace(fs, p, path, pat, rep) == Done(Edit(NotAFileReply(path), fs))
    ensures path in fs && fs[path].Unreadable? ==> StringReplace(fs, p, path, pat, rep) == Done(Edit(ReadFailureReply(fs[path].error), fs))
    ensures path in fs && fs[path].File? && Count(UniversalNewlines(fs[path].raw), pat) > 1
            ==> StringReplace(fs, p, path, pat, rep) == Done(Edit(MultipleReply, fs))
    ensures path in fs && fs[path].File? && Count(UniversalNewlines(fs[path].raw), pat) == 0
            ==> StringReplace(fs, p, path, pat, rep) == Done(Edit(NoMatchReply, fs))
  {
  }

  /** The unique-match edit of the script on a writable file: the text it
      read with `new_string` spliced in at the match, stored back in text
      mode; the reply reports the new text; no other path changes. */
  lemma StringReplaceSplice(fs: Fs, p: Platform, path: string, pat: string, rep: string)
    requires path in fs && fs[path].File? && fs[path].writable && Count(UniversalNewlines(fs[path].raw), pat) == 1
    ensures var updated := SpliceFirst(UniversalNewlines(fs[path].raw), pat, rep);
            StringReplace(fs, p, path, pat, rep) == Done(Edit(Replaced(updated, rep), fs[path := File(WriteText(updated, p), true)]))
  {
    EditTextSplice(UniversalNewlines(fs[path].raw), pat, rep);
  }

  /** On a readable file, the script writes a reply beginning with the
      success header exactly when the file is writable and has a unique
      match. (For a path that is not a file the reply begins with the path
      itself.) */
  lemma OnlySuccessReportsSuccess(fs: Fs, p: Platform, path: string, pat: string, rep: string)
    requires path in fs && fs[path].File?
    ensures var r := StringReplace(fs, p, path, pat, rep);
            r.Done? && HasPrefix(Text(r.value.reply), SuccessHeader)
            <==> fs[path].writable && Count(UniversalNewlines(fs[path].raw), pat) == 1
  {
    var content := UniversalNewlines(fs[path].raw);
    if Count(content, pat) == 1 {
      if fs[path].writable {
        StringReplaceSplice(fs, p, path, pat, rep);
        var m := Text(StringReplace(fs, p, path, pat, rep).value.reply);
        assert m[..|SuccessHeader|] == SuccessHeader;
      }
    } else {
      NotSuccessHeader(MultipleMatches);
      NotSuccessHeader(NoMatch);
    }
  }

  lemma NotSuccessHeader(m: string)
    requires m != [] && m[0] == 'o'
    ensures !HasPrefix(m, SuccessHeader)
  {
  }

  /** The window holds at most the lines of `new_string` plus `Context`
      lines on either side, numbered consecutively from `first + 1`, each
      the line of the new content at that position. */
  lemma DisplayShape(content: string, rep: string)
    ensures var w := WindowSpan(content, rep);
            var lines := SplitLines(content);
            var d := Display(content, rep);
            |d| <= |SplitLines(rep)| + 2 * Context
            && forall k :: 0 <= k < |d| ==>
                 w.first + k < |lines| && d[k] == IntToString(w.first + 1 + k) + "|" + lines[w.first + k]
  {
    var w := WindowSpan(content, rep);
    var lines := SplitLines(content);
    var a := SliceBound(w.first, |lines|);
    var b := SliceBound(w.last, |lines|);
    if a < b {
      assert a == w.first;
      assert PySlice(lines, w.first, w.last) == lines[a..b];
    }
  }

  /** The window is anchored at the first occurrence of `new_string` in the
      new content, which is never after the edited spot. */
  lemma {:induction false} WindowAnchorPrecedesEdit(content: string, pat: string, rep: string)
    requires Count(content, pat) == 1
    ensures 0 <= Find(ReplaceAll(content, pat, rep), rep) <= Find(content, pat)
  {
    ReplaceOnce(content, pat, rep);
    var i := Find(content, pat);
    var updated := ReplaceAll(content, pat, rep);
    assert updated[i..i + |rep|] == rep;
    assert OccursAt(updated, rep, i);
  }

  /** ... and it can precede it: replacing the `b` of `ab` by `a` shows the
      window around the `a` already at index 0. */
  lemma WindowAnchorCanPrecedeEdit()
    ensures Find("ab", "b") == 1
    ensures ReplaceAll("ab", "b", "a") == "aa" && Find("aa", "a") == 0
  {
    assert "ab"[..1] == ['a'] && ['a'] != "b";
    assert "ab"[1..][..1] == "b";
    assert ReplaceAll("ab", "b", "a") == "aa" by {
      assert "ab"[1..] == "b";
      assert "b"[1..] == [];
    }
  }

  /** Deleting text (an empty `new_string`) anchors the window at the top of
      the file, wherever the deletion was. */
  lemma EmptyReplacementShowsFileStart(content: string)
    ensures WindowSpan(content, []).first == 0
  {
    assert Find(content, []) == 0 by { assert OccursAt(content, [], 0); }
    assert PySlice(content, 0, 0) == [];
  }

  // ---------------------------------------------------------------------------
  // Line endings
  // ---------------------------------------------------------------------------

  /** As written, the whole file passes through text mode, so a file with
      `"\r\n"` line endings comes back with `"\n"` everywhere on Linux, not
      only inside the replaced span. */
  lemma LineEndingsRewritten()
    ensures var fs := map["f.py" := File("a\r\nb", true)];
            var r := StringReplace(fs, Linux, "f.py", "b", "c");
            r.Done? && r.value.fs["f.py"] == File("a\nc", true)
  {
    var raw := "a\r\nb";
    assert UniversalNewlines(raw) == "a\nb" by {
      assert raw[1..] == "\r\nb" && raw[3..] == "b";
      assert UniversalNewlines("b") == "b";
    }
    ReplaceLastChar();
  }

  lemma ReplaceLastChar()
    ensures Count("a\nb", "b") == 1 && ReplaceAll("a\nb", "b", "c") == "a\nc"
  {
    var s := "a\nb";
    assert s[..1] == ['a'] && ['a'] != "b" && s[1..] == "\nb";
    assert s[1..][..1] == ['\n'] && ['\n'] != "b" && s[1..][1..] == "b";
    assert "b"[..1] == "b" && "b"[1..] == [];
  }

  /** The edit with the file's text taken and stored byte for byte. */
  function StringReplaceExact(fs: Fs, path: string, pat: string, rep: string): (r: Outcome<Edit>)
    ensures r.Raised? <==> path in fs && fs[path].File? && !fs[path].writable && Count(fs[path].raw, pat) == 1
    ensures r.Done? ==> forall q :: q in r.value.fs <==> q in fs
    ensures r.Done? ==> r.value.fs == fs
                        || (path in fs && fs[path].File? && fs[path].writable && Count(fs[path].raw, pat) == 1)
  {
    ReplaceWith(fs, Exact, path, pat, rep)
  }

  /** It changes only the matched span: everything before and after it,
      line endings included, is kept as stored. */
  lemma ExactReplaceKeepsLineEndings(fs: Fs, path: string, pat: string, rep: string)
    requires path in fs && fs[path].File? && fs[path].writable && Count(fs[path].raw, pat) == 1
    ensures var r := StringReplaceExact(fs, path, pat, rep);
            r.Done? && r.value.fs == fs[path := File(SpliceFirst(fs[path].raw, pat, rep), true)]
  {
    EditTextSplice(fs[path].raw, pat, rep);
  }
}
