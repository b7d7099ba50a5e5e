/** The patch text cleanup shared by `Agent.save_patch` and
    `Agent.gather_patch` (src/agent.py), and the gathering of saved patch
    files into one map keyed by instance. */
module Patch {
  import opened PyText

  /** The PowerShell prompt echo that can be captured with the diff. */
  const PromptNoise := "PS>\nPS>prompt"
  /** The echo of the diff command itself. */
  const DiffEcho := "git --no-pager diff HEAD --diff-filter=M --text"
  const Marker := "diff --git"

  predicate StartsWith(s: string, p: string)
  {
    |p| <= |s| && s[..|p|] == p
  }

  /** Both noise strings removed, in one left-to-right pass each. */
  function Denoised(text: string): string
  {
    ReplaceAll(ReplaceAll(text, PromptNoise, ""), DiffEcho, "")
  }

  /** `patch[patch.find("diff --git"):]` after removing the noise. */
  function CleanPatch(text: string): string
  {
    var d := Denoised(text);
    PySlice(d, Find(d, Marker), |d|)
  }

  /** The cleaned patch starts at the first marker; without a marker, the
      slice from -1 keeps only the last character. */
  lemma CleanPatchCut(text: string)
    ensures var d := Denoised(text);
            var r := CleanPatch(text);
            |r| <= |d|
            && (Find(d, Marker) >= 0 ==> r == d[Find(d, Marker)..] && StartsWith(r, Marker))
            && (Find(d, Marker) < 0 && d == [] ==> r == [])
            && (Find(d, Marker) < 0 && d != [] ==> r == [d[|d| - 1]])
  {
  }

  /** A suffix of a text without `p` has no `p` either. */
  lemma AbsentInSuffix(s: string, p: string, i: nat)
    requires Find(s, p) == -1 && i <= |s|
    ensures Find(s[i..], p) == -1
  {
    var j := Find(s[i..], p);
    if j >= 0 {
      assert s[i..][j..j + |p|] == s[i + j..i + j + |p|];
      assert OccursAt(s, p, i + j);
      assert false;
    }
  }

  /** A text without either noise string is left alone by the noise removal. */
  lemma DenoisedQuiet(s: string)
    requires Find(s, PromptNoise) == -1 && Find(s, DiffEcho) == -1
    ensures Denoised(s) == s
  {
    ReplaceAbsent(s, PromptNoise, "");
    ReplaceAbsent(s, DiffEcho, "");
  }

  /** A clean diff, free of noise, is kept as it is. */
  lemma CleanDiffKept(text: string)
    requires Find(text, PromptNoise) == -1 && Find(text, DiffEcho) == -1
    requires StartsWith(text, Marker)
    ensures CleanPatch(text) == text
  {
    DenoisedQuiet(text);
    assert OccursAt(text, Marker, 0);
  }

  /** Cleaning twice changes nothing once the noise removal left no noise
      behind: with a marker the result is a clean diff, kept as it is;
      without one it is at most one character, too short to hold noise or a
      marker. */
  lemma CleanPatchIdempotent(text: string)
    requires Find(Denoised(text), PromptNoise) == -1 && Find(Denoised(text), DiffEcho) == -1
    ensures CleanPatch(CleanPatch(text)) == CleanPatch(text)
  {
    var d := Denoised(text);
    var r := CleanPatch(text);
    CleanPatchCut(text);
    if Find(d, Marker) >= 0 {
      AbsentInSuffix(d, PromptNoise, Find(d, Marker));
      AbsentInSuffix(d, DiffEcho, Find(d, Marker));
      CleanDiffKept(r);
    } else {
      ShortTextKept(r);
    }
  }

  /** Text of at most one character passes through the cleanup unchanged. */
  lemma ShortTextKept(s: string)
    requires |s| <= 1
    ensures CleanPatch(s) == s
  {
    DenoisedQuiet(s);
    assert Find(s, Marker) == -1;
  }

  /** Removing the noise can join two halves into new noise, which a second
      cleanup then removes: cleaning is not idempotent in general. The text
      is `diff --git PS>\nPS>PS>\nPS>promptprompt`; it cleans to
      `diff --git PS>\nPS>prompt`, which cleans to `diff --git `. */
  lemma CleanPatchNotIdempotent()
    ensures var head := "diff --git ";
            CleanPatch(head + ("PS>\n" + ("PS>" + PromptNoise + "prompt"))) == head + PromptNoise
            && CleanPatch(head + PromptNoise) == head
  {
    var head := "diff --git ";
    FirstPassJoinsNoise();
    Cleaned(head + PromptNoise);
    SecondPassRemovesIt();
    Cleaned(head);
  }

  lemma FirstPassJoinsNoise()
    ensures var head := "diff --git ";
            ReplaceAll(head + ("PS>\n" + ("PS>" + PromptNoise + "prompt")), PromptNoise, "") == head + PromptNoise
  {
    var head := "diff --git ";
    var u := "PS>\n" + ("PS>" + PromptNoise + "prompt");
    ReplaceSkipsPrefix(head, u, PromptNoise, "");
    NoiseAfterPrompt();
  }

  lemma NoiseAfterPrompt()
    ensures ReplaceAll("PS>\n" + ("PS>" + PromptNoise + "prompt"), PromptNoise, "") == PromptNoise
  {
    var w := "PS>" + PromptNoise + "prompt";
    var u := "PS>\n" + w;
    assert u[7] == 'P';
    ReplaceMissAt(u, PromptNoise, "", 7);
    assert u[1..] == "S>\n" + w;
    ReplaceSkipsPrefix("S>\n", w, PromptNoise, "");
    NoiseAfterShortPrompt();
    assert [u[0]] + ("S>\n" + "PS>prompt") == PromptNoise;
  }

  lemma NoiseAfterShortPrompt()
    ensures ReplaceAll("PS>" + PromptNoise + "prompt", PromptNoise, "") == "PS>prompt"
  {
    var w := "PS>" + PromptNoise + "prompt";
    assert w[3] == 'P';
    ReplaceMissAt(w, PromptNoise, "", 3);
    assert w[1..] == "S>" + (PromptNoise + "prompt");
    ReplaceSkipsPrefix("S>", PromptNoise + "prompt", PromptNoise, "");
    ReplaceLeading(PromptNoise, "prompt", "");
    assert [w[0]] + ("S>" + "prompt") == "PS>prompt";
  }

  /** A text that differs from the pattern at some position of its start
      keeps its first character. */
  lemma ReplaceMissAt(s: string, pat: string, rep: string, k: nat)
    requires pat != [] && k < |pat| <= |s| && s[k] != pat[k]
    ensures ReplaceAll(s, pat, rep) == [s[0]] + ReplaceAll(s[1..], pat, rep)
  {
    assert s[..|pat|][k] != pat[k];
  }

  lemma SecondPassRemovesIt()
    ensures ReplaceAll("diff --git " + PromptNoise, PromptNoise, "") == "diff --git "
  {
    var head := "diff --git ";
    ReplaceSkipsPrefix(head, PromptNoise, PromptNoise, "");
    ReplaceLeading(PromptNoise, [], "");
    assert PromptNoise + [] == PromptNoise;
    assert head + [] == head;
  }

  /** A short text beginning with the marker is its own cleanup once the
      prompt noise is gone. */
  lemma Cleaned(s: string)
    requires StartsWith(s, Marker) && |s| < |DiffEcho|
    ensures ReplaceAll(s, DiffEcho, "") == s
    ensures Find(s, Marker) == 0
    ensures PySlice(s, 0, |s|) == s
  {
    ShorterThanEcho(s);
    assert OccursAt(s, Marker, 0);
  }

  lemma ShorterThanEcho(s: string)
    requires |s| < |DiffEcho|
    ensures ReplaceAll(s, DiffEcho, "") == s
  {
  }


  /** Without a marker the cleanup keeps only the last character. */
  lemma MissingMarkerKeepsLastChar()
    ensures CleanPatch("no changes") == "s"
  {
    var t := "no changes";
    assert t[0] != 'P' && t[0] != 'g' && t[0] != 'd';
    DenoisedQuiet(t);
    assert !OccursAt(t, Marker, 0);
    assert Find(t, Marker) == -1;
  }

  // ---------------------------------------------------------------------------
  // gather_patch
  // ---------------------------------------------------------------------------

  /** One file of the patch directory, in directory-listing order. */
  datatype PatchFile = PatchFile(name: string, text: string)

  /** The collected patches and the number of files whose cleaned text is
      whitespace only. */
  datatype Gathered = Gathered(patches: map<string, string>, empty: nat)

  /** How a file name becomes the instance key. */
  datatype KeyRule =
    | StripDiffChars  // `name.strip(".diff")`: strips any of `.`, `d`, `i`, `f` at both ends
    | DropDiffSuffix  // remove exactly one trailing ".diff"

  const DiffChars: set<char> := {'.', 'd', 'i', 'f'}

  /** The name `save_patch` gives an instance's patch. */
  function PatchFileName(id: string): (name: string)
    ensures InstanceIdOf(name) == id
  {
    assert (id + ".diff")[..|id|] == id;
    id + ".diff"
  }

  /** The instance a patch file belongs to: the name without its ".diff". */
  function InstanceIdOf(name: string): (id: string)
    ensures |id| <= |name| && name[..|id|] == id
  {
    if |name| >= 5 && name[|name| - 5..] == ".diff" then name[..|name| - 5] else name
  }

  function KeyOf(rule: KeyRule, name: string): string
  {
    match rule
    case StripDiffChars => Strip(name, DiffChars)
    case DropDiffSuffix => InstanceIdOf(name)
  }

  /** Stripping characters loses the leading `d` of a Django instance. */
  lemma StripLosesInstanceId()
    ensures KeyOf(StripDiffChars, PatchFileName("django-1")) == "jango-1"
  {
    assert PatchFileName("django-1") == "d" + "jango-1" + ".diff";
    StripBetween("d", "jango-1", ".diff", DiffChars);
  }

  /** Stripping is harmless for ids that neither start nor end with one of
      the stripped characters. */
  lemma StripKeepsPlainId(id: string)
    requires id != [] && id[0] !in DiffChars && id[|id| - 1] !in DiffChars
    ensures KeyOf(StripDiffChars, PatchFileName(id)) == id
  {
    assert PatchFileName(id) == [] + id + ".diff";
    StripBetween([], id, ".diff", DiffChars);
  }

  /** What one file contributes: its key, its cleaned text, and whether
      that text is whitespace only. */
  datatype Entry = Entry(key: string, patch: string, blank: bool)

  /** The entry one file contributes: its key, its cleaned text, and
      whether that text is blank. */
  function EntryOf(rule: KeyRule, f: PatchFile): Entry
  {
    var patch := CleanPatch(f.text);
    Entry(KeyOf(rule, f.name), patch, IsBlank(patch))
  }

  function Entries(files: seq<PatchFile>, rule: KeyRule): (es: seq<Entry>)
    ensures |es| == |files|
    ensures forall i :: 0 <= i < |files| ==> es[i] == EntryOf(rule, files[i])
    ensures forall i :: 0 <= i < |files| ==> es[i].key == KeyOf(rule, files[i].name)
  {
    if files == [] then [] else [EntryOf(rule, files[0])] + Entries(files[1..], rule)
  }

  function Fold(es: seq<Entry>): (g: Gathered)
    ensures g.empty <= |es|
    ensures |g.patches| <= |es|
    decreases |es|
  {
    if es == [] then Gathered(map[], 0)
    else
      var g := Fold(es[..|es| - 1]);
      var e := es[|es| - 1];
      Gathered(g.patches[e.key := e.patch], g.empty + if e.blank then 1 else 0)
  }

  /** `gather_patch` over the directory listing. */
  function Collect(files: seq<PatchFile>, rule: KeyRule): Gathered
  {
    Fold(Entries(files, rule))
  }

  /** The keys are exactly the entries' keys. */
  lemma {:induction false} FoldKeys(es: seq<Entry>)
    ensures forall i :: 0 <= i < |es| ==> es[i].key in Fold(es).patches
    ensures forall k :: k in Fold(es).patches ==> exists i :: 0 <= i < |es| && es[i].key == k
    decreases |es|
  {
    if es != [] {
      var init := es[..|es| - 1];
      FoldKeys(init);
      assert forall i :: 0 <= i < |init| ==> init[i] == es[i];
    }
  }

  /** Each key holds the patch of the last entry with that key. */
  lemma {:induction false} FoldLastWins(es: seq<Entry>, i: nat)
    requires i < |es|
    requires forall j :: i < j < |es| ==> es[j].key != es[i].key
    ensures es[i].key in Fold(es).patches && Fold(es).patches[es[i].key] == es[i].patch
    decreases |es|
  {
    if i < |es| - 1 {
      var init := es[..|es| - 1];
      assert init[i] == es[i];
      assert forall j :: i < j < |init| ==> init[j] == es[j];
      FoldLastWins(init, i);
    }
  }

  /** The keys of the gathered map are exactly the files' keys. */
  lemma CollectKeys(files: seq<PatchFile>, rule: KeyRule)
    ensures forall i :: 0 <= i < |files| ==> KeyOf(rule, files[i].name) in Collect(files, rule).patches
    ensures forall k :: k in Collect(files, rule).patches ==>
              exists i :: 0 <= i < |files| && KeyOf(rule, files[i].name) == k
  {
    var es := Entries(files, rule);
    FoldKeys(es);
    assert Collect(files, rule) == Fold(es);
  }

  /** Each key holds the cleaned text of the last file with that key. */
  lemma CollectLastWins(files: seq<PatchFile>, rule: KeyRule, i: nat)
    requires i < |files|
    requires forall j :: i < j < |files| ==> KeyOf(rule, files[j].name) != KeyOf(rule, files[i].name)
    ensures KeyOf(rule, files[i].name) in Collect(files, rule).patches
    ensures Collect(files, rule).patches[KeyOf(rule, files[i].name)] == CleanPatch(files[i].text)
  {
    var es := Entries(files, rule);
    assert forall j :: i < j < |es| ==> es[j].key != es[i].key;
    FoldLastWins(es, i);
  }

  /** With the suffix removed, every saved instance's patch is found under
      its own id. */
  lemma CollectBySuffix(ids: seq<string>, texts: seq<string>, i: nat)
    requires |ids| == |texts| && i < |ids|
    requires forall j, k :: 0 <= j < k < |ids| ==> ids[j] != ids[k]
    ensures var files := seq(|ids|, j requires 0 <= j < |ids| => PatchFile(PatchFileName(ids[j]), texts[j]));
            ids[i] in Collect(files, DropDiffSuffix).patches
            && Collect(files, DropDiffSuffix).patches[ids[i]] == CleanPatch(texts[i])
  {
    var files := seq(|ids|, j requires 0 <= j < |ids| => PatchFile(PatchFileName(ids[j]), texts[j]));
    assert forall j :: 0 <= j < |files| ==> KeyOf(DropDiffSuffix, files[j].name) == ids[j];
    CollectLastWins(files, DropDiffSuffix, i);
  }

  /** Two names that strip to the same key: both count as empty, but only
      one patch is kept, so the empty count exceeds the number of patches. */
  lemma EmptyCanExceedPatches()
    ensures var g := Collect([PatchFile("a.diff", ""), PatchFile("ad.diff", "")], StripDiffChars);
            g.empty == 2 && |g.patches| == 1
  {
    KeysCollide();
    EmptyPatchIsBlank();
    EntriesPair(PatchFile("a.diff", ""), PatchFile("ad.diff", ""), StripDiffChars);
    FoldSameTwice(Entry("a", "", true));
  }

  /** Two files give their two entries, in order. */
  lemma EntriesPair(f: PatchFile, h: PatchFile, rule: KeyRule)
    ensures Entries([f, h], rule) == [EntryOf(rule, f), EntryOf(rule, h)]
  {
    var es := Entries([f, h], rule);
    assert es[0] == EntryOf(rule, f) && es[1] == EntryOf(rule, h);
  }

  lemma FoldSameTwice(e: Entry)
    ensures Fold([e, e]) == Gathered(map[e.key := e.patch], if e.blank then 2 else 0)
  {
    assert [e, e][..1] == [e] && [e][..0] == [];
  }

  lemma KeysCollide()
    ensures KeyOf(StripDiffChars, "a.diff") == "a" && KeyOf(StripDiffChars, "ad.diff") == "a"
  {
    assert "a.diff" == [] + "a" + ".diff";
    StripBetween([], "a", ".diff", DiffChars);
    assert "ad.diff" == [] + "a" + "d.diff";
    StripBetween([], "a", "d.diff", DiffChars);
  }

  lemma EmptyPatchIsBlank()
    ensures CleanPatch("") == "" && IsBlank("")
  {
    assert Denoised("") == "";
  }

  /** `gather_patch` over the directory listing. */
  method GatherPatch(files: seq<PatchFile>, rule: KeyRule) returns (res: map<string, string>, empty: nat)
    ensures Gathered(res, empty) == Collect(files, rule)
  {
    ghost var es := Entries(files, rule);
    res := map[];
    empty := 0;
    for i := 0 to |files|
      invariant Gathered(res, empty) == Fold(es[..i])
    {
      FoldStep(es, i);
      var patch := CleanPatch(files[i].text);
      assert es[i] == Entry(KeyOf(rule, files[i].name), patch, IsBlank(patch));
      res := res[KeyOf(rule, files[i].name) := patch];
      if IsBlank(patch) {
        empty := empty + 1;
      }
    }
    assert es[..|files|] == es;
  }

  /** One more entry: its key is set to its patch, and it is counted when blank. */
  lemma FoldStep(es: seq<Entry>, i: nat)
    requires i < |es|
    ensures var g := Fold(es[..i]);
            Fold(es[..i + 1]) == Gathered(g.patches[es[i].key := es[i].patch], g.empty + if es[i].blank then 1 else 0)
  {
    assert es[..i + 1][..i] == es[..i];
  }
}
