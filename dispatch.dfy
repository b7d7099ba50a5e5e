/** The tool registry and the per-turn dispatcher of src/tools.py: which
    tools a run offers, and what one model turn's tool calls produce. */
module Dispatch {
  import opened Wrappers
  import opened PyText
  import opened Json
  import opened Sandbox
  import ToolSet

  /** The entries of `Tools.tool_dict`. */
  datatype ToolKind = ShellTool | ReadTool | CreateTool | ReplaceTool | SubmitTool

  /** Looking a name up in `Tools.tool_dict`. */
  function ToolKindOf(name: string): (k: Option<ToolKind>)
    ensures k == Some(SubmitTool) <==> name == "submit"
  {
    if name == "shell" then Some(ShellTool)
    else if name == "read" then Some(ReadTool)
    else if name == "create" then Some(CreateTool)
    else if name == "string_replace" then Some(ReplaceTool)
    else if name == "submit" then Some(SubmitTool)
    else None
  }

  /** The function name declared in each tool's schema. */
  function SchemaName(k: ToolKind): (name: string)
    ensures ToolKindOf(name) == Some(k)
  {
    match k
    case ShellTool => "shell"
    case ReadTool => "read"
    case CreateTool => "create"
    case ReplaceTool => "string_replace"
    case SubmitTool => "submit"
  }

  /** Every name is a key of `tool_dict`. */
  predicate Registered(names: seq<string>)
  {
    forall i :: 0 <= i < |names| ==> ToolKindOf(names[i]).Some?
  }

  /** The configured tool names after `__init__` has made sure of submit. */
  function WithSubmit(names: seq<string>): (r: seq<string>)
    ensures "submit" in r
    ensures |names| <= |r| && r[..|names|] == names
    ensures "submit" in names ==> r == names
    ensures "submit" !in names ==> r == names + ["submit"]
  {
    if "submit" in names then names else names + ["submit"]
  }

  /** A configured list of tool names, shared with the caller. */
  class ToolList {
    var items: seq<string>

    constructor (items: seq<string>)
      ensures this.items == items
    {
      this.items := items;
    }
  }

  /** One tool call proposed by the model. */
  datatype Invocation = Invocation(id: string, name: string, arguments: string)

  /** One model response: its text and its tool calls, if any. */
  datatype Turn = Turn(content: string, toolCalls: Option<seq<Invocation>>)

  /** A conversation entry. */
  datatype Message =
    | SystemMsg(content: string)
    | UserMsg(content: string)
    | AssistantMsg(turn: Turn)
    | ToolMsg(callId: string, name: string, content: string)

  /** What `tool_call` returns: the messages to append and the submit flag. */
  datatype Reply = Reply(messages: seq<Message>, submit: bool)

  const OneCallPerTurn := "Each of your response should have exactly one tool call. " + "Plase generate one tool call."
  const OnlyOneCall := "Each of your response should have exactly one tool call. " + "Plase generate only one tool call next time."
  const NameNotFoundPrefix := "tool call name not found, available tools: "
  const ArgumentsErrorPrefix := "tool call arguments have json decode error: "

  /** `str(list_of_names)` for names without quotes or backslashes. */
  function ListRepr(names: seq<string>): string
  {
    "[" + Join(", ", seq(|names|, i requires 0 <= i < |names| => "'" + names[i] + "'")) + "]"
  }

  /** `name.strip().lower() == "submit"`. */
  predicate IsSubmitName(name: string)
  {
    AsciiLower(Strip(name, Whitespace)) == "submit"
  }

  /** The reply to each of several calls in one turn. */
  function Corrections(calls: seq<Invocation>): (ms: seq<Message>)
    ensures |ms| == |calls|
    ensures forall i :: 0 <= i < |calls| ==> ms[i] == ToolMsg(calls[i].id, calls[i].name, OnlyOneCall)
  {
    seq(|calls|, i requires 0 <= i < |calls| => ToolMsg(calls[i].id, calls[i].name, OnlyOneCall))
  }

  /** Running the tool registered under a name other than submit. */
  function ToolRun(env: Env, st: State, k: ToolKind, args: Json): (r: Ran<string>)
    requires k != SubmitTool
  {
    match k
    case ShellTool => ToolSet.ShellRun(env, st, args)
    case ReadTool => ToolSet.ReadRun(env, st, args)
    case CreateTool => ToolSet.CreateRun(env, st, args)
    case ReplaceTool => ToolSet.ReplaceRun(env, st, args)
  }

  /** The one call that is executed: a single call, not named submit, whose
      name is available and whose arguments parse. */
  predicate Executes(env: Env, available: seq<string>, calls: Option<seq<Invocation>>)
  {
    calls.Some? && |calls.value| == 1 && !IsSubmitName(calls.value[0].name)
    && calls.value[0].name in available && env.parse(calls.value[0].arguments).Some?
  }

  /** `Tools.tool_call` over one turn's calls. */
  function DispatchRun(env: Env, st: State, available: seq<string>, calls: Option<seq<Invocation>>): Ran<Reply>
    requires Registered(available)
  {
    if calls.None? || calls.value == [] then Ran(Done(Reply([UserMsg(OneCallPerTurn)], false)), st)
    else if |calls.value| > 1 then Ran(Done(Reply(Corrections(calls.value), false)), st)
    else
      var c := calls.value[0];
      if IsSubmitName(c.name) then Ran(Done(Reply([], true)), st)
      else if c.name !in available then
        Ran(Done(Reply([ToolMsg(c.id, c.name, NameNotFoundPrefix + ListRepr(available))], false)), st)
      else
        match env.parse(c.arguments)
        case None => Ran(Done(Reply([ToolMsg(c.id, c.name, ArgumentsErrorPrefix + c.arguments)], false)), st)
        case Some(args) =>
          SubmitIsSubmitName();
          var t := ToolRun(env, st, ToolKindOf(c.name).value, args);
          match t.result
          case Raised => Ran(Raised, t.st)
          case Done(text) => Ran(Done(Reply([ToolMsg(c.id, c.name, text)], false)), t.st)
  }

  /** A turn without exactly one call gets corrective messages and runs
      nothing: one user message for no calls, one tool message per call, in
      order, for several. */
  lemma DispatchWrongCount(env: Env, st: State, available: seq<string>, calls: Option<seq<Invocation>>)
    requires Registered(available)
    ensures var r := DispatchRun(env, st, available, calls);
            (calls.None? || calls.value == []) ==> r == Ran(Done(Reply([UserMsg(OneCallPerTurn)], false)), st)
    ensures var r := DispatchRun(env, st, available, calls);
            calls.Some? && |calls.value| > 1 ==>
              r.st == st && r.result.Done? && !r.result.value.submit
              && |r.result.value.messages| == |calls.value|
              && forall i :: 0 <= i < |calls.value| ==>
                   r.result.value.messages[i] == ToolMsg(calls.value[i].id, calls.value[i].name, OnlyOneCall)
  {
  }

  /** A single call: a submit name (after trimming and lower-casing) gives
      the submit flag and nothing else; an unavailable name gets the list of
      available tools; unparsable arguments are quoted back. */
  lemma DispatchSingle(env: Env, st: State, available: seq<string>, c: Invocation)
    requires Registered(available)
    ensures var r := DispatchRun(env, st, available, Some([c]));
            (IsSubmitName(c.name) ==> r == Ran(Done(Reply([], true)), st))
            && (!IsSubmitName(c.name) && c.name !in available ==>
                  r == Ran(Done(Reply([ToolMsg(c.id, c.name, NameNotFoundPrefix + ListRepr(available))], false)), st))
            && (!IsSubmitName(c.name) && c.name in available && env.parse(c.arguments).None? ==>
                  r == Ran(Done(Reply([ToolMsg(c.id, c.name, ArgumentsErrorPrefix + c.arguments)], false)), st))
  {
  }

  /** The named tool runs exactly when a single, available, non-submit call
      has parsable arguments; its text is wrapped in one tool message and
      the flag is false. Otherwise the sandbox is untouched. */
  lemma DispatchExecutes(env: Env, st: State, available: seq<string>, calls: Option<seq<Invocation>>)
    requires Registered(available)
    ensures var r := DispatchRun(env, st, available, calls);
            Executes(env, available, calls) ==>
              var c := calls.value[0];
              var k := ToolKindOf(c.name).value;
              k != SubmitTool
              && var t := ToolRun(env, st, k, env.parse(c.arguments).value);
              r.st == t.st
              && (t.result.Raised? ==> r.result.Raised?)
              && (t.result.Done? ==> r.result == Done(Reply([ToolMsg(c.id, c.name, t.result.value)], false)))
    ensures var r := DispatchRun(env, st, available, calls);
            !Executes(env, available, calls) ==> r.st == st && r.result.Done?
  {
    if Executes(env, available, calls) {
      SubmitIsSubmitName();
    }
  }

  /** Only a single submit call raises the flag, and it comes without
      messages. */
  lemma DispatchSubmitOnly(env: Env, st: State, available: seq<string>, calls: Option<seq<Invocation>>)
    requires Registered(available)
    ensures var r := DispatchRun(env, st, available, calls);
            r.result.Done? && r.result.value.submit ==>
              calls.Some? && |calls.value| == 1 && IsSubmitName(calls.value[0].name) && r.result.value.messages == []
  {
  }

  /** The exact name `submit` is recognised, so the registered submit tool is
      never executed. */
  lemma SubmitIsSubmitName()
    ensures IsSubmitName("submit")
  {
    SubmitHasNoWhitespace();
    var lower := AsciiLower("submit");
    assert forall i :: 0 <= i < 6 ==> lower[i] == "submit"[i];
  }

  /** A name counts as `submit` exactly when, stripped of whitespace, it
      spells `submit` in any mix of upper and lower case. */
  lemma SubmitNameCases(name: string)
    ensures var t := Strip(name, Whitespace);
            IsSubmitName(name) <==> |t| == 6 && forall i :: 0 <= i < 6 ==> t[i] == "submit"[i] || t[i] == "SUBMIT"[i]
  {
    LowersToSubmit(Strip(name, Whitespace));
  }

  lemma LowersToSubmit(t: string)
    ensures AsciiLower(t) == "submit" <==> |t| == 6 && forall i :: 0 <= i < 6 ==> t[i] == "submit"[i] || t[i] == "SUBMIT"[i]
  {
    var lower := AsciiLower(t);
    var w := "submit";
    assert forall i :: 0 <= i < 6 ==> 'a' <= w[i] <= 'z' && "SUBMIT"[i] as int == w[i] as int - 32;
    if |t| == 6 && forall i :: 0 <= i < 6 ==> t[i] == w[i] || t[i] == "SUBMIT"[i] {
      assert forall i :: 0 <= i < 6 ==> lower[i] == w[i];
    }
  }

  lemma SubmitHasNoWhitespace()
    ensures Strip("submit", Whitespace) == "submit"
  {
    var name := "submit";
    assert name[0] == 's' && name[|name| - 1] == 't';
    assert 's' !in Whitespace && 't' !in Whitespace;
  }

  /** The registry of one run. */
  class Tools {
    const available: ToolList
    var schemas: seq<string>

    ghost predicate Valid()
      reads this, available
    {
      "submit" in available.items && Registered(available.items)
      && |schemas| == |available.items|
      && forall i :: 0 <= i < |schemas| ==> schemas[i] == SchemaName(ToolKindOf(available.items[i]).value)
    }

    constructor (available: ToolList, schemas: seq<string>)
      ensures this.available == available && this.schemas == schemas
    {
      this.available := available;
      this.schemas := schemas;
    }

    /** `Tools.__init__`: append submit to the caller's list if it is
        missing, then collect the schemas; a name that is not a key of
        `tool_dict` fails construction, after the append. */
    static method Init(list: ToolList) returns (t: Option<Tools>)
      modifies list
      ensures list.items == WithSubmit(old(list.items))
      ensures t.Some? <==> Registered(list.items)
      ensures t.Some? ==> fresh(t.value) && t.value.available == list && t.value.Valid()
    {
      if "submit" !in list.items {
        list.items := list.items + ["submit"];
      }
      var schemas: seq<string> := [];
      var i := 0;
      while i < |list.items|
        invariant 0 <= i <= |list.items| && |schemas| == i
        invariant forall j :: 0 <= j < i ==> ToolKindOf(list.items[j]).Some?
        invariant forall j :: 0 <= j < i ==> schemas[j] == SchemaName(ToolKindOf(list.items[j]).value)
      {
        var k := ToolKindOf(list.items[i]);
        if k.None? {
          return None;
        }
        schemas := schemas + [SchemaName(k.value)];
        i := i + 1;
      }
      var tools := new Tools(list, schemas);
      return Some(tools);
    }

    /** `Tools.tool_call`. */
    method ToolCall(rt: Runtime, calls: Option<seq<Invocation>>) returns (r: Outcome<Reply>)
      requires Registered(available.items)
      modifies rt
      ensures Ran(r, rt.Now()) == DispatchRun(rt.env, old(rt.Now()), available.items, calls)
    {
      if calls.None? || calls.value == [] {
        return Done(Reply([UserMsg(OneCallPerTurn)], false));
      }
      var cs := calls.value;
      if |cs| > 1 {
        var messages: seq<Message> := [];
        for i := 0 to |cs|
          invariant |messages| == i
          invariant forall j :: 0 <= j < i ==> messages[j] == ToolMsg(cs[j].id, cs[j].name, OnlyOneCall)
        {
          messages := messages + [ToolMsg(cs[i].id, cs[i].name, OnlyOneCall)];
        }
        assert messages == Corrections(cs);
        return Done(Reply(messages, false));
      }
      var c := cs[0];
      if IsSubmitName(c.name) {
        return Done(Reply([], true));
      }
      if c.name !in available.items {
        return Done(Reply([ToolMsg(c.id, c.name, NameNotFoundPrefix + ListRepr(available.items))], false));
      }
      var args := rt.env.parse(c.arguments);
      if args.None? {
        return Done(Reply([ToolMsg(c.id, c.name, ArgumentsErrorPrefix + c.arguments)], false));
      }
      SubmitIsSubmitName();
      var t := RunTool(rt, ToolKindOf(c.name).value, args.value);
      if t.Raised? {
        return Raised;
      }
      return Done(Reply([ToolMsg(c.id, c.name, t.value)], false));
    }
  }

  /** `self.tool_dict[name].tool_call(container, args)`. */
  method RunTool(rt: Runtime, k: ToolKind, args: Json) returns (r: Outcome<string>)
    requires k != SubmitTool
    modifies rt
    ensures Ran(r, rt.Now()) == ToolRun(rt.env, old(rt.Now()), k, args)
  {
    match k
    case ShellTool => r := ToolSet.Shell(rt, args);
    case ReadTool => r := ToolSet.Read(rt, args);
    case CreateTool => r := ToolSet.Create(rt, args);
    case ReplaceTool => r := ToolSet.Replace(rt, args);
  }
}
