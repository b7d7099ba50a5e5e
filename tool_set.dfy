/** The tool front-ends of src/tool_set: argument checks, then a fixed
    sequence of host-side temp-file writes and sandbox commands. The checks
    are pure functions of the parsed arguments; each run is a function of
    the sandbox state (`...Run`), and each method performs that run on a
    `Runtime`. */
module ToolSet {
  import opened Wrappers
  import opened PyText
  import opened Json
  import opened Sandbox
  import Utils

  /** What a tool's argument checks decide: return a message, raise (an
      attribute or comparison on a value of the wrong type), or go ahead
      with a plan. */
  datatype Check<+P> = Reject(message: string) | Crash | Accept(plan: P)

  /** The shell commands among some events, in order. */
  function Commands(events: seq<Event>): (cs: seq<string>)
    ensures |cs| <= |events|
  {
    if events == [] then []
    else (if events[0].Command? then [events[0].text] else []) + Commands(events[1..])
  }

  /** `path.strip('"').strip("'").strip("`")`. */
  function StripQuotes(p: string): string
  {
    Strip(Strip(Strip(p, {'"'}), {'\''}), {'`'})
  }

  /** The stripped path is a contiguous piece of the argument, and it
      neither starts nor ends with a backtick. */
  lemma StripQuotesSlice(p: string)
    ensures IsSlice(StripQuotes(p), p)
    ensures var r := StripQuotes(p); r != [] ==> r[0] != '`' && r[|r| - 1] != '`'
  {
    var a := Strip(p, {'"'});
    var b := Strip(a, {'\''});
    var c := Strip(b, {'`'});
    IsSliceTrans(c, b, a);
    IsSliceTrans(c, a, p);
  }

  /** A path that neither starts nor ends with a quote passes the three
      strips unchanged. */
  lemma StripQuotesPlain(p: string)
    ensures (p == [] || (p[0] !in {'"', '\'', '`'} && p[|p| - 1] !in {'"', '\'', '`'})) ==> StripQuotes(p) == p
  {
    if p != [] && p[0] !in {'"', '\'', '`'} && p[|p| - 1] !in {'"', '\'', '`'} {
      StripNothing(p, {'"'});
      StripNothing(p, {'\''});
      StripNothing(p, {'`'});
    }
  }

  lemma StripNothing(s: string, cs: set<char>)
    requires s != [] && s[0] !in cs && s[|s| - 1] !in cs
    ensures Strip(s, cs) == s
  {
  }

  /** `"rm a ; rm b ; ..."`: remove the temp files. */
  function RemoveTemps(names: seq<string>): string
  {
    Join(" ; ", seq(|names|, i requires 0 <= i < |names| => "rm " + names[i]))
  }

  // ---------------------------------------------------------------------------
  // read
  // ---------------------------------------------------------------------------

  const ReadPathRequired := "parameter `path` is required for read tool call"
  const StartNegative := "start line number should be >= 0"
  const StartAfterEnd := "start line number should be < end line number"

  /** The path value and the range flags passed to mnt/read.py. */
  datatype ReadPlan = ReadPlan(path: Json, extra: string)

  function RangeFlags(start: Json, end: Json): string
    requires AsInt(start).Some? && AsInt(end).Some?
  {
    "--start " + Format(start) + " --end " + Format(end)
  }

  function ReadCheck(args: Json): (c: Check<ReadPlan>)
    ensures Get(args, "path").Missing? ==> c == Reject(ReadPathRequired)
    ensures c.Accept? ==> Get(args, "path").Found? && c.plan.path == Get(args, "path").value
    ensures c.Accept? && c.plan.extra != "" ==>
              Get(args, "start").Found? && Get(args, "end").Found?
              && AsInt(Get(args, "start").value).Some? && AsInt(Get(args, "end").value).Some?
              && 0 <= AsInt(Get(args, "start").value).value <= AsInt(Get(args, "end").value).value
              && c.plan.extra == RangeFlags(Get(args, "start").value, Get(args, "end").value)
    ensures Get(args, "path").Found? && !(Get(args, "start").Found? && Get(args, "end").Found?) ==>
              c == Accept(ReadPlan(Get(args, "path").value, ""))
    ensures Get(args, "path").Found? && Get(args, "start").Found? && Get(args, "end").Found?
            && AsInt(Get(args, "start").value).Some? && AsInt(Get(args, "end").value).Some? ==>
              var s := AsInt(Get(args, "start").value).value;
              var e := AsInt(Get(args, "end").value).value;
              (s < 0 ==> c == Reject(StartNegative))
              && (0 <= s && e < s ==> c == Reject(StartAfterEnd))
              && (0 <= s <= e ==> c.Accept?)
  {
    match Get(args, "path")
    case NotAMapping => Crash
    case Missing => Reject(ReadPathRequired)
    case Found(path) =>
      var start := Get(args, "start");
      var end := Get(args, "end");
      if !(start.Found? && end.Found?) then Accept(ReadPlan(path, ""))
      else if AsInt(start.value).None? then Crash
      else if AsInt(start.value).value < 0 then Reject(StartNegative)
      else if AsInt(end.value).None? then Crash
      else if AsInt(start.value).value > AsInt(end.value).value then Reject(StartAfterEnd)
      else Accept(ReadPlan(path, RangeFlags(start.value, end.value)))
  }

  function ReadCommand(pathFile: string, outputFile: string, extra: string): string
  {
    "python -m mnt.read --path_file " + pathFile + " --output_file " + outputFile + "  " + extra
  }

  /** `Read.tool_call`: write the path to a temp file, reset the working
      directory, run mnt/read.py, read its output file, remove both. */
  function ReadRun(env: Env, st: State, args: Json): (r: Ran<string>)
    ensures ReadCheck(args).Reject? ==> r == Ran(Done(ReadCheck(args).message), st)
    ensures ReadCheck(args).Crash? ==> r == Ran(Raised, st)
    ensures |st.trace| <= |r.st.trace| && r.st.trace[..|st.trace|] == st.trace
  {
    match ReadCheck(args)
    case Reject(m) => Ran(Done(m), st)
    case Crash => Ran(Raised, st)
    case Accept(plan) => ReadPlanRun(env, st, plan)
  }

  function ReadPlanRun(env: Env, st: State, plan: ReadPlan): (r: Ran<string>)
    ensures |st.trace| <= |r.st.trace| && r.st.trace[..|st.trace|] == st.trace
  {
    var pathFile := TempName(env, st.temps);
    if !plan.path.JStr? then Ran(Raised, State(st.trace + [HostWrite(pathFile, "")], st.temps + 1))
    else
      var outputFile := TempName(env, st.temps + 1);
      var trace := st.trace + [HostWrite(pathFile, plan.path.s), Command(CwdCommand(env.platform)),
                               Command(ReadCommand(pathFile, outputFile, plan.extra))];
      match HostText(env, trace, outputFile)
      case None => Ran(Raised, State(trace, st.temps + 2))
      case Some(res) => Ran(Done(res), State(trace + [Command(RemoveTemps([pathFile, outputFile]))], st.temps + 2))
  }

  method Read(rt: Runtime, args: Json) returns (r: Outcome<string>)
    modifies rt
    ensures Ran(r, rt.Now()) == ReadRun(rt.env, old(rt.Now()), args)
  {
    match ReadCheck(args)
    case Reject(m) => return Done(m);
    case Crash => return Raised;
    case Accept(plan) => r := RunReadPlan(rt, plan);
  }

  method RunReadPlan(rt: Runtime, plan: ReadPlan) returns (r: Outcome<string>)
    modifies rt
    ensures Ran(r, rt.Now()) == ReadPlanRun(rt.env, old(rt.Now()), plan)
  {
    ghost var st := rt.Now();
    var pathFile := rt.NewTemp();
    if !plan.path.JStr? {
      rt.WriteHost(pathFile, "");
      return Raised;
    }
    rt.WriteHost(pathFile, plan.path.s);
    var outputFile := rt.NewTemp();
    Utils.ResetCwd(rt);
    var _ := rt.SendCommand(ReadCommand(pathFile, outputFile, plan.extra));
    assert rt.trace == st.trace + [HostWrite(pathFile, plan.path.s), Command(CwdCommand(rt.env.platform)),
                                   Command(ReadCommand(pathFile, outputFile, plan.extra))];
    var res := rt.ReadHost(outputFile);
    if res.None? {
      return Raised;
    }
    var _ := rt.SendCommand(RemoveTemps([pathFile, outputFile]));
    return Done(res.value);
  }

  // ---------------------------------------------------------------------------
  // string_replace
  // ---------------------------------------------------------------------------

  const ReplacePathRequired := "parameter `path` is required for string_replace tool call"
  const OldRequired := "parameter `old_string` is required for string_replace tool call"
  const NewRequired := "parameter `new_string` is required for string_replace tool call"

  datatype ReplacePlan = ReplacePlan(path: string, oldText: Json, newText: Json)

  function ReplaceCheck(args: Json): (c: Check<ReplacePlan>)
    ensures Get(args, "path").Missing? ==> c == Reject(ReplacePathRequired)
    ensures c.Accept? ==>
              Get(args, "path").Found? && Get(args, "path").value.JStr?
              && c.plan.path == StripQuotes(Get(args, "path").value.s)
              && Get(args, "old_string") == Found(c.plan.oldText)
              && Get(args, "new_string") == Found(c.plan.newText)
    ensures Get(args, "path").Found? && Get(args, "path").value.JStr? ==>
              (Get(args, "old_string").Missing? ==> c == Reject(OldRequired))
              && (Get(args, "old_string").Found? && Get(args, "new_string").Missing? ==> c == Reject(NewRequired))
              && (Get(args, "old_string").Found? && Get(args, "new_string").Found? ==> c.Accept?)
  {
    match Get(args, "path")
    case NotAMapping => Crash
    case Missing => Reject(ReplacePathRequired)
    case Found(path) =>
      if !path.JStr? then Crash
      else
        var oldText := Get(args, "old_string");
        if !oldText.Found? then Reject(OldRequired)
        else
          var newText := Get(args, "new_string");
          if !newText.Found? then Reject(NewRequired)
          else Accept(ReplacePlan(StripQuotes(path.s), oldText.value, newText.value))
  }

  function ReplaceCommand(pathFile: string, oldFile: string, newFile: string, outputFile: string): string
  {
    "python -m mnt.replace --path_file " + pathFile + " --old_file " + oldFile
      + " --new_file " + newFile + " --output_file " + outputFile
  }

  /** `Replace.tool_call`: write the path, `old_string` and `new_string` to
      three temp files, reset the working directory, run mnt/replace.py,
      read its output file, remove all four. */
  function ReplaceRun(env: Env, st: State, args: Json): (r: Ran<string>)
    ensures ReplaceCheck(args).Reject? ==> r == Ran(Done(ReplaceCheck(args).message), st)
    ensures ReplaceCheck(args).Crash? ==> r == Ran(Raised, st)
    ensures |st.trace| <= |r.st.trace| && r.st.trace[..|st.trace|] == st.trace
  {
    match ReplaceCheck(args)
    case Reject(m) => Ran(Done(m), st)
    case Crash => Ran(Raised, st)
    case Accept(plan) => ReplacePlanRun(env, st, plan)
  }

  function ReplacePlanRun(env: Env, st: State, plan: ReplacePlan): (r: Ran<string>)
    ensures |st.trace| <= |r.st.trace| && r.st.trace[..|st.trace|] == st.trace
  {
    var k := st.temps;
    var t1 := st.trace + [HostWrite(TempName(env, k), plan.path)];
    if !plan.oldText.JStr? then Ran(Raised, State(t1 + [HostWrite(TempName(env, k + 1), "")], k + 2))
    else if !plan.newText.JStr? then
      Ran(Raised, State(t1 + [HostWrite(TempName(env, k + 1), plan.oldText.s), HostWrite(TempName(env, k + 2), "")], k + 3))
    else ReplaceExec(env, st, plan.path, plan.oldText.s, plan.newText.s)
  }

  /** The temp files of one string_replace call: path, old, new, output. */
  function ReplaceFiles(env: Env, k: nat): seq<string>
  {
    [TempName(env, k), TempName(env, k + 1), TempName(env, k + 2), TempName(env, k + 3)]
  }

  /** The three host writes of one string_replace call. */
  function ReplaceWrites(files: seq<string>, path: string, oldText: string, newText: string): seq<Event>
    requires |files| == 4
  {
    [HostWrite(files[0], path), HostWrite(files[1], oldText), HostWrite(files[2], newText)]
  }

  /** The three commands of one string_replace call. */
  function ReplaceCommands(p: Platform, files: seq<string>): seq<string>
    requires |files| == 4
  {
    [CwdCommand(p), ReplaceCommand(files[0], files[1], files[2], files[3]), RemoveTemps(files)]
  }

  /** string_replace once both strings are strings: the writes, the cd and
      the script; then the output file is read and all four are removed. */
  function ReplaceExec(env: Env, st: State, path: string, oldText: string, newText: string): (r: Ran<string>)
    ensures |st.trace| <= |r.st.trace| && r.st.trace[..|st.trace|] == st.trace
  {
    var files := ReplaceFiles(env, st.temps);
    var cmds := ReplaceCommands(env.platform, files);
    var t3 := st.trace + ReplaceWrites(files, path, oldText, newText) + Cmds(cmds[..2]);
    match HostText(env, t3, files[3])
    case None => Ran(Raised, State(t3, st.temps + 4))
    case Some(res) => Ran(Done(res), State(t3 + [Command(cmds[2])], st.temps + 4))
  }

  method Replace(rt: Runtime, args: Json) returns (r: Outcome<string>)
    modifies rt
    ensures Ran(r, rt.Now()) == ReplaceRun(rt.env, old(rt.Now()), args)
  {
    match ReplaceCheck(args)
    case Reject(m) => return Done(m);
    case Crash => return Raised;
    case Accept(plan) => r := RunReplacePlan(rt, plan);
  }

  method RunReplacePlan(rt: Runtime, plan: ReplacePlan) returns (r: Outcome<string>)
    modifies rt
    ensures Ran(r, rt.Now()) == ReplacePlanRun(rt.env, old(rt.Now()), plan)
  {
    ghost var st := rt.Now();
    var pathFile := rt.NewTemp();
    rt.WriteHost(pathFile, plan.path);
    var oldFile := rt.NewTemp();
    if !plan.oldText.JStr? {
      rt.WriteHost(oldFile, "");
      return Raised;
    }
    rt.WriteHost(oldFile, plan.oldText.s);
    var newFile := rt.NewTemp();
    if !plan.newText.JStr? {
      rt.WriteHost(newFile, "");
      return Raised;
    }
    rt.WriteHost(newFile, plan.newText.s);
    ghost var files := ReplaceFiles(rt.env, st.temps);
    ghost var cmds := ReplaceCommands(rt.env.platform, files);
    assert files == [pathFile, oldFile, newFile, TempName(rt.env, rt.temps)];
    assert rt.trace == st.trace + ReplaceWrites(files, plan.path, plan.oldText.s, plan.newText.s);
    assert Cmds(cmds[..2]) == [Command(cmds[0]), Command(cmds[1])];
    r := RunReplaceScript(rt, pathFile, oldFile, newFile);
  }

  /** The script part of string_replace once the three inputs are written:
      the cd and `mnt.replace`, the read of the output file, and the removal
      of all four files. */
  method RunReplaceScript(rt: Runtime, pathFile: string, oldFile: string, newFile: string) returns (r: Outcome<string>)
    modifies rt
    ensures var outputFile := TempName(rt.env, old(rt.temps));
            var cmds := ReplaceCommands(rt.env.platform, [pathFile, oldFile, newFile, outputFile]);
            var t := old(rt.trace) + [Command(cmds[0]), Command(cmds[1])];
            var res := HostText(rt.env, t, outputFile);
            rt.temps == old(rt.temps) + 1
            && (res.None? ==> r == Raised && rt.trace == t)
            && (res.Some? ==> r == Done(res.value) && rt.trace == t + [Command(cmds[2])])
  {
    var outputFile := rt.NewTemp();
    Utils.ResetCwd(rt);
    var _ := rt.SendCommand(ReplaceCommand(pathFile, oldFile, newFile, outputFile));
    assert rt.trace == old(rt.trace) + [Command(CwdCommand(rt.env.platform)),
                                        Command(ReplaceCommand(pathFile, oldFile, newFile, outputFile))];
    var res := rt.ReadHost(outputFile);
    if res.None? {
      return Raised;
    }
    var _ := rt.SendCommand(RemoveTemps([pathFile, oldFile, newFile, outputFile]));
    return Done(res.value);
  }

  // ---------------------------------------------------------------------------
  // create
  // ---------------------------------------------------------------------------

  const CreatePathRequired := "parameter `path` is required for create tool call"
  const ContentRequired := "parameter `content` is required for create tool call"
  const Created := "file created successfully."

  datatype CreatePlan = CreatePlan(path: string, content: Json)

  function CreateCheck(args: Json): (c: Check<CreatePlan>)
    ensures Get(args, "path").Missing? ==> c == Reject(CreatePathRequired)
    ensures c.Accept? ==>
              Get(args, "path").Found? && Get(args, "path").value.JStr?
              && c.plan.path == StripQuotes(Get(args, "path").value.s)
              && Get(args, "content") == Found(c.plan.content)
    ensures Get(args, "path").Found? && Get(args, "path").value.JStr? ==>
              (Get(args, "content").Missing? ==> c == Reject(ContentRequired))
              && (Get(args, "content").Found? ==> c.Accept?)
  {
    match Get(args, "path")
    case NotAMapping => Crash
    case Missing => Reject(CreatePathRequired)
    case Found(path) =>
      if !path.JStr? then Crash
      else
        var content := Get(args, "content");
        if !content.Found? then Reject(ContentRequired)
        else Accept(CreatePlan(StripQuotes(path.s), content.value))
  }

  /** Remove a file if present, with the platform's shell. */
  function RemoveCommand(p: Platform, path: string): string
  {
    if p == Windows then "Remove-Item '" + path + "' -Force -ErrorAction SilentlyContinue"
    else "rm -f '" + path + "'"
  }

  function MoveCommand(from: string, to: string): string
  {
    "mv '" + from + "' '" + to + "' "
  }

  /** `Create.tool_call`: write the content to a temp file, reset the working
      directory, remove the target, move the temp file onto it, remove the
      temp file, and report on the move. */
  function CreateRun(env: Env, st: State, args: Json): (r: Ran<string>)
    ensures CreateCheck(args).Reject? ==> r == Ran(Done(CreateCheck(args).message), st)
    ensures CreateCheck(args).Crash? ==> r == Ran(Raised, st)
    ensures |st.trace| <= |r.st.trace| && r.st.trace[..|st.trace|] == st.trace
  {
    match CreateCheck(args)
    case Reject(m) => Ran(Done(m), st)
    case Crash => Ran(Raised, st)
    case Accept(plan) => CreatePlanRun(env, st, plan)
  }

  function CreatePlanRun(env: Env, st: State, plan: CreatePlan): (r: Ran<string>)
    ensures |st.trace| <= |r.st.trace| && r.st.trace[..|st.trace|] == st.trace
  {
    if !plan.content.JStr? then Ran(Raised, State(st.trace + [HostWrite(TempName(env, st.temps), "")], st.temps + 1))
    else CreateExec(env, st, plan.path, plan.content.s)
  }

  /** The four commands of one create call. */
  function CreateCommands(p: Platform, tempFile: string, path: string): seq<string>
  {
    [CwdCommand(p), RemoveCommand(p, path), MoveCommand(tempFile, path), RemoveCommand(p, tempFile)]
  }

  /** create once the content is a string: the write, then the commands;
      the reply is decided by the exit code of the move. */
  function CreateExec(env: Env, st: State, path: string, content: string): (r: Ran<string>)
    ensures |st.trace| <= |r.st.trace| && r.st.trace[..|st.trace|] == st.trace
  {
    var tempFile := TempName(env, st.temps);
    var cmds := CreateCommands(env.platform, tempFile, path);
    var before := st.trace + [HostWrite(tempFile, content), Command(cmds[0]), Command(cmds[1])];
    var moved := env.respond(before, cmds[2]);
    Ran(Done(if moved.exitCode == 0 then Created else moved.output),
        State(before + [Command(cmds[2]), Command(cmds[3])], st.temps + 1))
  }

  method Create(rt: Runtime, args: Json) returns (r: Outcome<string>)
    modifies rt
    ensures Ran(r, rt.Now()) == CreateRun(rt.env, old(rt.Now()), args)
  {
    match CreateCheck(args)
    case Reject(m) => return Done(m);
    case Crash => return Raised;
    case Accept(plan) => r := RunCreatePlan(rt, plan);
  }

  method RunCreatePlan(rt: Runtime, plan: CreatePlan) returns (r: Outcome<string>)
    modifies rt
    ensures Ran(r, rt.Now()) == CreatePlanRun(rt.env, old(rt.Now()), plan)
  {
    if !plan.content.JStr? {
      var tempFile := rt.NewTemp();
      rt.WriteHost(tempFile, "");
      return Raised;
    }
    r := CreateWith(rt, plan.path, plan.content.s);
  }

  method CreateWith(rt: Runtime, path: string, content: string) returns (r: Outcome<string>)
    modifies rt
    ensures Ran(r, rt.Now()) == CreateExec(rt.env, old(rt.Now()), path, content)
  {
    ghost var st := rt.Now();
    var tempFile := rt.NewTemp();
    StageCreate(rt, tempFile, path, content);
    ghost var cmds := CreateCommands(rt.env.platform, tempFile, path);
    ghost var before := st.trace + [HostWrite(tempFile, content), Command(cmds[0]), Command(cmds[1])];
    var moved := rt.SendCommand(MoveCommand(tempFile, path));
    var _ := rt.SendCommand(RemoveCommand(rt.env.platform, tempFile));
    assert rt.trace == before + [Command(cmds[2]), Command(cmds[3])];
    if moved.exitCode == 0 {
      return Done(Created);
    }
    return Done(moved.output);
  }

  /** The steps of create before the move: the content goes to the temp
      file, then the cwd reset and the removal of the target. */
  method StageCreate(rt: Runtime, tempFile: string, path: string, content: string)
    modifies rt
    ensures rt.trace == old(rt.trace) + [HostWrite(tempFile, content), Command(CwdCommand(rt.env.platform)),
                                         Command(RemoveCommand(rt.env.platform, path))]
    ensures rt.temps == old(rt.temps)
  {
    rt.WriteHost(tempFile, content);
    Utils.ResetCwd(rt);
    var _ := rt.SendCommand(RemoveCommand(rt.env.platform, path));
  }

  // ---------------------------------------------------------------------------
  // shell
  // ---------------------------------------------------------------------------

  const CommandRequired := "The command parameter of the tool call shell is required."

  /** `Shell.tool_call`: pass the command to the sandbox and format its reply.
      Arguments that are not an object raise `AttributeError`; a command that
      is not a string is taken to raise in `send_command`. */
  function ShellRun(env: Env, st: State, args: Json): (r: Ran<string>)
    ensures Get(args, "command").Missing? ==> r == Ran(Done(CommandRequired), st)
    ensures Get(args, "command").Found? && Get(args, "command").value.JStr? ==>
              var c := Get(args, "command").value.s;
              r == Ran(Done(env.observe(env.respond(st.trace, c))), State(st.trace + [Command(c)], st.temps))
    ensures !args.JObject? || (Get(args, "command").Found? && !Get(args, "command").value.JStr?) ==> r == Ran(Raised, st)
    ensures |st.trace| <= |r.st.trace| <= |st.trace| + 1 && r.st.trace[..|st.trace|] == st.trace
  {
    match Get(args, "command")
    case NotAMapping => Ran(Raised, st)
    case Missing => Ran(Done(CommandRequired), st)
    case Found(c) =>
      if !c.JStr? then Ran(Raised, st)
      else Ran(Done(env.observe(env.respond(st.trace, c.s))), State(st.trace + [Command(c.s)], st.temps))
  }

  method Shell(rt: Runtime, args: Json) returns (r: Outcome<string>)
    modifies rt
    ensures Ran(r, rt.Now()) == ShellRun(rt.env, old(rt.Now()), args)
  {
    match Get(args, "command")
    case NotAMapping => return Raised;
    case Missing => return Done(CommandRequired);
    case Found(c) =>
      if !c.JStr? {
        return Raised;
      }
      var res := rt.SendCommand(c.s);
      return Done(rt.env.observe(res));
  }

  // ---------------------------------------------------------------------------
  // What the front-ends do to the sandbox
  // ---------------------------------------------------------------------------

  /** Shell commands as events. */
  function Cmds(cs: seq<string>): (events: seq<Event>)
    ensures |events| == |cs| && forall i :: 0 <= i < |cs| ==> events[i] == Command(cs[i])
  {
    seq(|cs|, i requires 0 <= i < |cs| => Command(cs[i]))
  }

  /** Host-side writes followed by commands: the commands are what was issued. */
  lemma {:induction false} CommandsAfterWrites(ws: seq<Event>, cs: seq<string>)
    requires forall i :: 0 <= i < |ws| ==> ws[i].HostWrite?
    ensures Commands(ws + Cmds(cs)) == cs
    decreases |ws| + |cs|
  {
    if ws != [] {
      assert (ws + Cmds(cs))[1..] == ws[1..] + Cmds(cs);
      CommandsAfterWrites(ws[1..], cs);
    } else if cs != [] {
      assert ws + Cmds(cs) == Cmds(cs);
      assert Cmds(cs)[1..] == [] + Cmds(cs[1..]);
      CommandsAfterWrites([], cs[1..]);
    } else {
      assert ws + Cmds(cs) == [];
    }
  }

  /** A record that extends `pre` by host writes and then commands: the
      commands are exactly those sent, and dropping the last event drops
      the last command. */
  lemma TraceAfterWrites(pre: seq<Event>, writes: seq<Event>, cs: seq<string>, t: seq<Event>)
    requires forall i :: 0 <= i < |writes| ==> writes[i].HostWrite?
    requires cs != [] && t == pre + writes + Cmds(cs)
    ensures t[|pre|..] == writes + Cmds(cs)
    ensures Commands(t[|pre|..]) == cs
    ensures t[..|t| - 1] == pre + writes + Cmds(cs[..|cs| - 1])
  {
    CommandsAfterWrites(writes, cs);
    assert Cmds(cs) == Cmds(cs[..|cs| - 1]) + [Command(cs[|cs| - 1])];
  }

  /** A successful read writes the path to the first temp file, issues exactly
      the cwd reset, the `mnt.read` command and the removal of both temp files,
      and returns the output file's text as read before the removal. */
  lemma ReadPlanCommands(env: Env, st: State, plan: ReadPlan)
    requires ReadPlanRun(env, st, plan).result.Done?
    ensures plan.path.JStr?
    ensures var r := ReadPlanRun(env, st, plan);
            var pathFile := TempName(env, st.temps);
            var outputFile := TempName(env, st.temps + 1);
            var cmds := [CwdCommand(env.platform), ReadCommand(pathFile, outputFile, plan.extra),
                         RemoveTemps([pathFile, outputFile])];
            r.st.trace == st.trace + [HostWrite(pathFile, plan.path.s)] + Cmds(cmds)
            && Commands(r.st.trace[|st.trace|..]) == cmds
            && HostText(env, r.st.trace[..|r.st.trace| - 1], outputFile) == Some(r.result.value)
  {
    var r := ReadPlanRun(env, st, plan);
    var pathFile := TempName(env, st.temps);
    var outputFile := TempName(env, st.temps + 1);
    var cmds := [CwdCommand(env.platform), ReadCommand(pathFile, outputFile, plan.extra),
                 RemoveTemps([pathFile, outputFile])];
    var events := [HostWrite(pathFile, plan.path.s)] + Cmds(cmds);
    assert r.st.trace == st.trace + events;
    assert r.st.trace[|st.trace|..] == events;
    assert r.st.trace[..|r.st.trace| - 1] == st.trace + events[..3];
    CommandsAfterWrites([HostWrite(pathFile, plan.path.s)], cmds);
  }

  /** The path written by read is the argument itself, not quote-stripped. */
  lemma ReadPathVerbatim(env: Env, st: State, args: Json)
    requires ReadCheck(args).Accept? && ReadRun(env, st, args).result.Done?
    ensures Get(args, "path").Found? && Get(args, "path").value.JStr?
    ensures ReadRun(env, st, args).st.trace[|st.trace|] == HostWrite(TempName(env, st.temps), Get(args, "path").value.s)
  {
    ReadPlanCommands(env, st, ReadCheck(args).plan);
  }

  /** A successful string_replace writes the stripped path, `old_string` and
      `new_string` verbatim to three temp files, issues exactly the cwd
      reset, the `mnt.replace` command naming all four temp files and their
      removal, and returns the output file's text. */
  lemma ReplacePlanCommands(env: Env, st: State, plan: ReplacePlan)
    requires ReplacePlanRun(env, st, plan).result.Done?
    ensures plan.oldText.JStr? && plan.newText.JStr?
    ensures var r := ReplacePlanRun(env, st, plan);
            var k := st.temps;
            var files := [TempName(env, k), TempName(env, k + 1), TempName(env, k + 2), TempName(env, k + 3)];
            var cmds := [CwdCommand(env.platform), ReplaceCommand(files[0], files[1], files[2], files[3]),
                         RemoveTemps(files)];
            r.st.trace == st.trace + [HostWrite(files[0], plan.path), HostWrite(files[1], plan.oldText.s),
                                      HostWrite(files[2], plan.newText.s)] + Cmds(cmds)
            && Commands(r.st.trace[|st.trace|..]) == cmds
            && HostText(env, r.st.trace[..|r.st.trace| - 1], files[3]) == Some(r.result.value)
  {
    var files := ReplaceFiles(env, st.temps);
    var cmds := ReplaceCommands(env.platform, files);
    var writes := ReplaceWrites(files, plan.path, plan.oldText.s, plan.newText.s);
    var r := ReplacePlanRun(env, st, plan);
    assert r.st.trace == st.trace + writes + Cmds(cmds[..2]) + [Command(cmds[2])];
    assert Cmds(cmds) == Cmds(cmds[..2]) + [Command(cmds[2])];
    TraceAfterWrites(st.trace, writes, cmds, r.st.trace);
  }

  /** create with string content writes it verbatim to a temp file, issues
      exactly the cwd reset, the removal of the target, the move of the temp
      file onto the target and the removal of the temp file, and reports
      success when the move exits with 0 and the move's output otherwise. */
  lemma CreatePlanCommands(env: Env, st: State, plan: CreatePlan)
    requires plan.content.JStr?
    ensures var r := CreatePlanRun(env, st, plan);
            var tempFile := TempName(env, st.temps);
            var cmds := [CwdCommand(env.platform), RemoveCommand(env.platform, plan.path),
                         MoveCommand(tempFile, plan.path), RemoveCommand(env.platform, tempFile)];
            var moved := env.respond(st.trace + [HostWrite(tempFile, plan.content.s)] + Cmds(cmds[..2]), cmds[2]);
            r.st.trace == st.trace + [HostWrite(tempFile, plan.content.s)] + Cmds(cmds)
            && Commands(r.st.trace[|st.trace|..]) == cmds
            && (moved.exitCode == 0 ==> r.result == Done(Created))
            && (moved.exitCode != 0 ==> r.result == Done(moved.output))
  {
    var tempFile := TempName(env, st.temps);
    var cmds := CreateCommands(env.platform, tempFile, plan.path);
    var writes := [HostWrite(tempFile, plan.content.s)];
    CmdsOfFour(cmds);
    assert st.trace + [HostWrite(tempFile, plan.content.s), Command(cmds[0]), Command(cmds[1])]
           == st.trace + writes + Cmds(cmds[..2]);
    TraceAfterWrites(st.trace, writes, cmds, CreatePlanRun(env, st, plan).st.trace);
  }

  /** Four commands as events, and the first two of them. */
  lemma CmdsOfFour(cs: seq<string>)
    requires |cs| == 4
    ensures Cmds(cs) == [Command(cs[0]), Command(cs[1]), Command(cs[2]), Command(cs[3])]
    ensures Cmds(cs[..2]) == [Command(cs[0]), Command(cs[1])]
  {
  }
}
