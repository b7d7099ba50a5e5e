/** The agent of src/agent.py: one rollout is a bounded loop of model turns
    dispatched to the tools, followed by saving the patch and tearing the
    sandbox down; a dataset run goes over the instances in order, skipping
    finished ones and rewriting the status file after each rollout. */
module AgentRun {
  import opened Wrappers
  import opened PyText
  import opened Codecs
  import opened Sandbox
  import opened Dispatch
  import opened Patch
  import Utils

  /** The exit status recorded for an instance. */
  datatype Status = Submitted | ExitCost | Error

  /** The model behind `LLM.query`: its answer to a conversation, or an
      exception once the client's retries are used up. */
  datatype Llm = Llm(answer: seq<Message> -> Outcome<Turn>)

  /** What an `Agent` is constructed with. */
  datatype Config = Config(llm: Llm, available: seq<string>, maxSteps: nat, template: string, runId: string)

  /** A dataset instance; `env` is the sandbox its image launches. */
  datatype Instance = Instance(id: string, problem: string, env: Env)

  const SystemPrompt := "You are an expert software engineer."
  const Placeholder := "_PROBLEM_STATEMENT_"

  /** The conversation a rollout starts from. */
  function InitialMessages(template: string, problem: string): seq<Message>
  {
    [SystemMsg(SystemPrompt), UserMsg(ReplaceAll(template, Placeholder, problem))]
  }

  // ---------------------------------------------------------------------------
  // The step loop of rollout
  // ---------------------------------------------------------------------------

  /** How the step loop ended: the status, the conversation, how many times
      the model was queried, the turns it returned, the dispatcher's replies,
      and the sandbox state. */
  datatype Loop = Loop(status: Status, messages: seq<Message>, queries: nat,
                       turns: seq<Turn>, replies: seq<Reply>, st: State)

  /** What the loop asks of the tools: the dispatcher's reply to a turn's
      tool calls, and the sandbox state after it. */
  type Handler = (State, Option<seq<Invocation>>) -> Ran<Reply>

  /** `Tools.tool_call` on the sandbox `env` with the tools `available`. */
  function ToolCaller(env: Env, available: seq<string>): Handler
    requires Registered(available)
  {
    (st: State, calls: Option<seq<Invocation>>) => DispatchRun(env, st, available, calls)
  }

  /** The loop from step `step` on, with `messages` so far. */
  function Steps(llm: Llm, handler: Handler, st: State, messages: seq<Message>, step: nat, maxSteps: nat): Loop
    decreases maxSteps - step
  {
    if step >= maxSteps then Loop(ExitCost, messages, 0, [], [], st)
    else
      match llm.answer(messages)
      case Raised => Loop(Error, messages, 1, [], [], st)
      case Done(turn) =>
        var d := handler(st, turn.toolCalls);
        match d.result
        case Raised => Loop(Error, messages, 1, [turn], [], d.st)
        case Done(reply) =>
          if reply.submit then Loop(Submitted, messages, 1, [turn], [reply], d.st)
          else
            var next := Steps(llm, handler, d.st, messages + [AssistantMsg(turn)] + reply.messages, step + 1, maxSteps);
            next.(queries := next.queries + 1, turns := [turn] + next.turns, replies := [reply] + next.replies)
  }

  /** The model is queried at most once per step; the loop ends in `error`
      exactly when the last query or its dispatch raised (a query without a
      reply); it runs out of steps exactly when every query got a reply and
      none submitted, and then it made a query in every step. */
  lemma {:induction false} StepsQueries(llm: Llm, handler: Handler, st: State, messages: seq<Message>,
                                      step: nat, maxSteps: nat)
    requires step <= maxSteps
    ensures var r := Steps(llm, handler, st, messages, step, maxSteps);
            r.queries <= maxSteps - step
            && |r.replies| <= |r.turns| <= r.queries
            && (r.status == ExitCost ==>
                  r.queries == maxSteps - step && |r.replies| == r.queries
                  && forall i :: 0 <= i < |r.replies| ==> !r.replies[i].submit)
            && (r.status != ExitCost ==> 1 <= r.queries)
            && (r.status == Error <==> |r.replies| < r.queries)
            && (r.status == ExitCost <==>
                  |r.replies| == r.queries && forall i :: 0 <= i < |r.replies| ==> !r.replies[i].submit)
    decreases maxSteps - step
  {
    if step < maxSteps {
      var answer := llm.answer(messages);
      if answer.Done? {
        var d := handler(st, answer.value.toolCalls);
        if d.result.Done? && !d.result.value.submit {
          var m' := messages + [AssistantMsg(answer.value)] + d.result.value.messages;
          StepsQueries(llm, handler, d.st, m', step + 1, maxSteps);
          var next := Steps(llm, handler, d.st, m', step + 1, maxSteps);
          var replies := [d.result.value] + next.replies;
          assert forall i :: 0 <= i < |next.replies| ==> next.replies[i] == replies[i + 1];
        } else if d.result.Done? {
          assert Steps(llm, handler, st, messages, step, maxSteps).replies[0].submit;
        }
      }
    }
  }

  /** The loop stops with `Submitted` exactly when the last reply has the
      submit flag, and no earlier reply has it. */
  lemma {:induction false} StepsSubmit(llm: Llm, handler: Handler, st: State, messages: seq<Message>,
                                     step: nat, maxSteps: nat)
    ensures var r := Steps(llm, handler, st, messages, step, maxSteps);
            (r.status == Submitted <==> r.replies != [] && r.replies[|r.replies| - 1].submit)
            && (forall i :: 0 <= i < |r.replies| - 1 ==> !r.replies[i].submit)
            && (r.status == Submitted ==> |r.turns| == |r.replies|)
    decreases maxSteps - step
  {
    if step < maxSteps {
      var answer := llm.answer(messages);
      if answer.Done? {
        var d := handler(st, answer.value.toolCalls);
        if d.result.Done? && !d.result.value.submit {
          var m' := messages + [AssistantMsg(answer.value)] + d.result.value.messages;
          StepsSubmit(llm, handler, d.st, m', step + 1, maxSteps);
          var next := Steps(llm, handler, d.st, m', step + 1, maxSteps);
          var replies := [d.result.value] + next.replies;
          assert forall i :: 1 <= i < |replies| ==> replies[i] == next.replies[i - 1];
        }
      }
    }
  }

  /** The conversation the steps append: each turn, then its reply's messages. */
  function Transcript(turns: seq<Turn>, replies: seq<Reply>): seq<Message>
    requires |turns| == |replies|
  {
    if turns == [] then []
    else [AssistantMsg(turns[0])] + replies[0].messages + Transcript(turns[1..], replies[1..])
  }

  /** How many turns went into the conversation: all replied turns but a
      submitting one. */
  function Appended(r: Loop): nat
  {
    if r.status == Submitted && r.replies != [] then |r.replies| - 1 else |r.replies|
  }

  /** The conversation grows by each non-submitting turn and its reply's
      messages, in order; the submitting turn is not appended. */
  lemma {:induction false} StepsTranscript(llm: Llm, handler: Handler, st: State, messages: seq<Message>,
                                         step: nat, maxSteps: nat)
    ensures var r := Steps(llm, handler, st, messages, step, maxSteps);
            |r.replies| <= |r.turns|
            && r.messages == messages + Transcript(r.turns[..Appended(r)], r.replies[..Appended(r)])
    decreases maxSteps - step
  {
    var r := Steps(llm, handler, st, messages, step, maxSteps);
    if step < maxSteps {
      var answer := llm.answer(messages);
      if answer.Done? {
        var d := handler(st, answer.value.toolCalls);
        if d.result.Done? && !d.result.value.submit {
          var turn := answer.value;
          var reply := d.result.value;
          var m' := messages + [AssistantMsg(turn)] + reply.messages;
          StepsTranscript(llm, handler, d.st, m', step + 1, maxSteps);
          var next := Steps(llm, handler, d.st, m', step + 1, maxSteps);
          var n := Appended(next);
          assert Appended(r) == n + 1;
          assert r.turns == [turn] + next.turns && r.replies == [reply] + next.replies;
          TranscriptPrepend(turn, reply, next.turns, next.replies, n);
        }
      }
    }
  }

  /** Prepending a turn and its reply prepends their messages. */
  lemma TranscriptPrepend(turn: Turn, reply: Reply, turns: seq<Turn>, replies: seq<Reply>, n: nat)
    requires n <= |turns| && n <= |replies|
    ensures Transcript(([turn] + turns)[..n + 1], ([reply] + replies)[..n + 1])
            == [AssistantMsg(turn)] + reply.messages + Transcript(turns[..n], replies[..n])
  {
    var ts := ([turn] + turns)[..n + 1];
    var rs := ([reply] + replies)[..n + 1];
    assert ts[0] == turn && ts[1..] == turns[..n];
    assert rs[0] == reply && rs[1..] == replies[..n];
  }

  // ---------------------------------------------------------------------------
  // save_patch and one rollout
  // ---------------------------------------------------------------------------

  /** The sandbox-side file the diff is written to. */
  function DiffFile(runId: string, id: string): string
  {
    "mnt/" + runId + "_" + id + ".diff"
  }

  function DiffCommand(file: string): string
  {
    "git --no-pager diff HEAD --diff-filter=M --text > " + file
  }

  /** `Agent.save_patch`: write the diff into the shared directory, read it
      with the encoding fallback, clean it, and remove the sandbox file. The
      result is the cleaned patch the host writes to the patch directory; a
      missing diff file raises. */
  function SaveRun(env: Env, st: State, runId: string, id: string): (r: Ran<string>)
    ensures r.st.temps == st.temps
    ensures var t := st.trace + [Command(CwdCommand(env.platform)), Command(DiffCommand(DiffFile(runId, id)))];
            (env.hostFile(t, DiffFile(runId, id)).None? ==> r == Ran(Raised, State(t, st.temps)))
            && (env.hostFile(t, DiffFile(runId, id)).Some? ==>
                  r.result == Done(CleanPatch(DecodeWithFallback(env.codec, env.hostFile(t, DiffFile(runId, id)).value)))
                  && r.st.trace == t + [Command("rm " + DiffFile(runId, id))])
  {
    var file := DiffFile(runId, id);
    var t := st.trace + [Command(CwdCommand(env.platform)), Command(DiffCommand(file))];
    match env.hostFile(t, file)
    case None => Ran(Raised, State(t, st.temps))
    case Some(b) => Ran(Done(CleanPatch(DecodeWithFallback(env.codec, b))), State(t + [Command("rm " + file)], st.temps))
  }

  /** One rollout: the step loop from a fresh sandbox, whose status is
      recorded; then save_patch, whose outcome is `saved`; then teardown,
      only when saving did not raise. */
  datatype Episode = Episode(loop: Loop, saved: Outcome<string>, st: State)

  function RolloutRun(cfg: Config, inst: Instance): (e: Episode)
    requires Registered(cfg.available)
  {
    var loop := Steps(cfg.llm, ToolCaller(inst.env, cfg.available), State([], 0), InitialMessages(cfg.template, inst.problem),
                      0, cfg.maxSteps);
    var save := SaveRun(inst.env, loop.st, cfg.runId, inst.id);
    Episode(loop, save.result,
            if save.result.Done? then State(save.st.trace + [Teardown], save.st.temps) else save.st)
  }

  /** At most `max_steps` queries; `error` exactly when a query or dispatch
      raised; `exit_cost` exactly when nothing raised and nothing submitted,
      and then after exactly `max_steps` queries; zero steps give `exit_cost`
      at once. */
  lemma RolloutQueries(cfg: Config, inst: Instance)
    requires Registered(cfg.available)
    ensures var e := RolloutRun(cfg, inst);
            e.loop.queries <= cfg.maxSteps
            && (e.loop.status == ExitCost ==> e.loop.queries == cfg.maxSteps)
            && (e.loop.status == Error <==> |e.loop.replies| < e.loop.queries)
            && (|e.loop.replies| == e.loop.queries && (forall i :: 0 <= i < |e.loop.replies| ==> !e.loop.replies[i].submit)
                ==> e.loop.status == ExitCost && e.loop.queries == cfg.maxSteps)
            && (cfg.maxSteps == 0 ==> e.loop.status == ExitCost && e.loop.queries == 0)
  {
    StepsQueries(cfg.llm, ToolCaller(inst.env, cfg.available), State([], 0), InitialMessages(cfg.template, inst.problem),
                 0, cfg.maxSteps);
  }

  /** The conversation starts with the system and user prompts and then
      holds each non-submitting turn followed by its reply's messages. */
  lemma RolloutConversation(cfg: Config, inst: Instance)
    requires Registered(cfg.available)
    ensures var e := RolloutRun(cfg, inst);
            var n := Appended(e.loop);
            n <= |e.loop.replies| <= |e.loop.turns|
            && e.loop.messages == InitialMessages(cfg.template, inst.problem)
                                  + Transcript(e.loop.turns[..n], e.loop.replies[..n])
            && (e.loop.status == Submitted <==> e.loop.replies != [] && e.loop.replies[|e.loop.replies| - 1].submit)
  {
    StepsTranscript(cfg.llm, ToolCaller(inst.env, cfg.available), State([], 0), InitialMessages(cfg.template, inst.problem),
                    0, cfg.maxSteps);
    StepsSubmit(cfg.llm, ToolCaller(inst.env, cfg.available), State([], 0), InitialMessages(cfg.template, inst.problem),
                0, cfg.maxSteps);
  }

  /** The patch is saved after the loop however it ended, and the sandbox is
      torn down exactly when saving did not raise. */
  lemma RolloutFinally(cfg: Config, inst: Instance)
    requires Registered(cfg.available)
    ensures var e := RolloutRun(cfg, inst);
            var t := e.loop.st.trace + [Command(CwdCommand(inst.env.platform)),
                                        Command(DiffCommand(DiffFile(cfg.runId, inst.id)))];
            |t| <= |e.st.trace| && e.st.trace[..|t|] == t
            && (e.saved.Done? <==> e.st.trace[|e.st.trace| - 1] == Teardown)
  {
  }

  // ---------------------------------------------------------------------------
  // run_dataset
  // ---------------------------------------------------------------------------

  /** What persists across rollouts: the in-memory status map, the patch
      directory (instance id to saved patch) and the status file. An absent
      or blank status file is the empty map. */
  datatype Books = Books(status: map<string, Status>, patchDir: map<string, string>, statusFile: map<string, Status>)

  datatype DatasetResult = DatasetResult(books: Books, aborted: bool)

  /** The skip test of run_dataset: `None` when the patch exists but the
      status lookup raises `KeyError`. */
  function SkipDecision(b: Books, id: string): (d: Option<bool>)
    ensures d.None? <==> id in b.patchDir && id !in b.status
    ensures d == Some(true) <==> id in b.patchDir && id in b.status && b.status[id] != Error
  {
    if id !in b.patchDir then Some(false)
    else if id !in b.status then None
    else Some(b.status[id] != Error)
  }

  /** The books after one rollout: its status (downgraded to `error` if the
      rollout raised), its saved patch, and the status file rewritten. */
  function AfterRollout(b: Books, id: string, e: Episode): (r: Books)
    ensures id in r.status && r.statusFile == r.status
    ensures e.saved.Raised? ==> r.status[id] == Error && r.patchDir == b.patchDir
    ensures e.saved.Done? ==> r.status[id] == e.loop.status && id in r.patchDir && r.patchDir[id] == e.saved.value
    ensures forall k :: k != id ==> (k in r.status <==> k in b.status) && (k in b.status ==> r.status[k] == b.status[k])
  {
    var status := b.status[id := e.loop.status];
    var status' := if e.saved.Raised? then status[id := Error] else status;
    Books(status', if e.saved.Done? then b.patchDir[id := e.saved.value] else b.patchDir, status')
  }

  /** What the instance loop asks of a rollout. */
  type Roller = Instance -> Episode

  /** `Agent.rollout` of an agent built from `cfg`. */
  function Rollouts(cfg: Config): Roller
    requires Registered(cfg.available)
  {
    (inst: Instance) => RolloutRun(cfg, inst)
  }

  /** The instance loop of run_dataset. */
  function DatasetRun(rollout: Roller, b: Books, instances: seq<Instance>): DatasetResult
    decreases |instances|
  {
    if instances == [] then DatasetResult(b, false)
    else
      match SkipDecision(b, instances[0].id)
      case None => DatasetResult(b, true)
      case Some(true) => DatasetRun(rollout, b, instances[1..])
      case Some(false) =>
        DatasetRun(rollout, AfterRollout(b, instances[0].id, rollout(instances[0])), instances[1..])
  }

  /** The status map once the status file has been merged in. */
  function Resumed(b: Books): (r: Books)
    ensures forall k :: k in b.statusFile ==> k in r.status && r.status[k] == b.statusFile[k]
    ensures forall k :: k in b.status && k !in b.statusFile ==> k in r.status && r.status[k] == b.status[k]
  {
    b.(status := b.status + b.statusFile)
  }

  /** Without a `KeyError`, every instance ends with a status, and no status
      is lost. */
  lemma {:induction false} DatasetRecordsAll(rollout: Roller, b: Books, instances: seq<Instance>)
    ensures var r := DatasetRun(rollout, b, instances);
            (forall k :: k in b.status ==> k in r.books.status)
            && (!r.aborted ==> forall i :: 0 <= i < |instances| ==> instances[i].id in r.books.status)
    decreases |instances|
  {
    if instances != [] {
      var id := instances[0].id;
      match SkipDecision(b, id)
      case None =>
      case Some(true) =>
        DatasetRecordsAll(rollout, b, instances[1..]);
      case Some(false) =>
        var b' := AfterRollout(b, id, rollout(instances[0]));
        DatasetRecordsAll(rollout, b', instances[1..]);
    }
  }

  /** The status file always equals the status map once anything ran, and
      is untouched otherwise. */
  lemma {:induction false} DatasetLedger(rollout: Roller, b: Books, instances: seq<Instance>)
    ensures var r := DatasetRun(rollout, b, instances).books;
            r.statusFile == r.status || (r.statusFile == b.statusFile && r.status == b.status)
    decreases |instances|
  {
    if instances != [] {
      var id := instances[0].id;
      match SkipDecision(b, id)
      case None =>
      case Some(true) =>
        DatasetLedger(rollout, b, instances[1..]);
      case Some(false) =>
        var b' := AfterRollout(b, id, rollout(instances[0]));
        DatasetLedger(rollout, b', instances[1..]);
    }
  }

  /** Resuming a run in which every instance already has a patch and a
      status other than `error` does nothing. */
  lemma {:induction false} DatasetResumeIdle(rollout: Roller, b: Books, instances: seq<Instance>)
    requires forall i :: 0 <= i < |instances| ==>
               instances[i].id in b.patchDir && instances[i].id in b.status && b.status[instances[i].id] != Error
    ensures DatasetRun(rollout, b, instances) == DatasetResult(b, false)
    decreases |instances|
  {
    if instances != [] {
      assert forall i :: 1 <= i < |instances| ==> instances[1..][i - 1] == instances[i];
      DatasetResumeIdle(rollout, b, instances[1..]);
    }
  }

  // ---------------------------------------------------------------------------
  // The agent object
  // ---------------------------------------------------------------------------

  class Agent {
    const config: Config
    const tools: Tools
    var exitStatus: map<string, Status>
    /** output/<run_id>/patch: the saved patch of each instance. */
    var patchDir: map<string, string>
    /** output/<run_id>/exit_status.json. */
    var statusFile: map<string, Status>

    ghost predicate Valid()
      reads tools, tools.available
    {
      tools.Valid() && tools.available.items == config.available
    }

    function Records(): Books
      reads this
    {
      Books(exitStatus, patchDir, statusFile)
    }

    constructor (config: Config, tools: Tools, patchDir: map<string, string>, statusFile: map<string, Status>)
      requires tools.Valid() && tools.available.items == config.available
      ensures Valid() && this.config == config && this.tools == tools
      ensures exitStatus == map[] && this.patchDir == patchDir && this.statusFile == statusFile
    {
      this.config := config;
      this.tools := tools;
      exitStatus := map[];
      this.patchDir := patchDir;
      this.statusFile := statusFile;
    }

    /** `Agent.save_patch`. */
    method SavePatch(rt: Runtime, id: string) returns (r: Outcome<string>)
      modifies this, rt
      ensures Ran(r, rt.Now()) == SaveRun(rt.env, old(rt.Now()), config.runId, id)
      ensures patchDir == if r.Done? then old(patchDir)[id := r.value] else old(patchDir)
      ensures exitStatus == old(exitStatus) && statusFile == old(statusFile)
    {
      ghost var st := rt.Now();
      Utils.ResetCwd(rt);
      var file := DiffFile(config.runId, id);
      var _ := rt.SendCommand(DiffCommand(file));
      assert rt.trace == st.trace + [Command(CwdCommand(rt.env.platform)), Command(DiffCommand(file))];
      var bytes := rt.ReadHostBytes(file);
      var text := Utils.ReadWithEncodingProblem(rt.env.codec, bytes);
      if text.Raised? {
        return Raised;
      }
      var patch := CleanPatch(text.value);
      patchDir := patchDir[id := patch];
      var _ := rt.SendCommand("rm " + file);
      return Done(patch);
    }

    /** `Agent.rollout`. */
    method Rollout(inst: Instance) returns (escaped: bool, final: State)
      requires Valid()
      modifies this
      ensures var e := RolloutRun(config, inst);
              exitStatus == old(exitStatus)[inst.id := e.loop.status]
              && patchDir == (if e.saved.Done? then old(patchDir)[inst.id := e.saved.value] else old(patchDir))
              && statusFile == old(statusFile)
              && escaped == e.saved.Raised? && final == e.st
    {
      var rt := new Runtime(inst.env);
      var messages := InitialMessages(config.template, inst.problem);
      ghost var target := Steps(config.llm, ToolCaller(inst.env, config.available), rt.Now(), messages, 0, config.maxSteps);
      var step := 0;
      var status := ExitCost;
      var done := false;
      while step < config.maxSteps && !done
        invariant step <= config.maxSteps
        invariant rt.env == inst.env && Valid()
        invariant !done ==> var r := Steps(config.llm, ToolCaller(inst.env, config.available), rt.Now(), messages, step, config.maxSteps);
                            r.status == target.status && r.st == target.st
        invariant done ==> status == target.status && rt.Now() == target.st
        invariant !done ==> status == ExitCost
        invariant exitStatus == old(exitStatus) && patchDir == old(patchDir) && statusFile == old(statusFile)
        decreases config.maxSteps - step, if done then 0 else 1
      {
        var answer := config.llm.answer(messages);
        if answer.Raised? {
          status := Error;
          done := true;
        } else {
          var reply := tools.ToolCall(rt, answer.value.toolCalls);
          if reply.Raised? {
            status := Error;
            done := true;
          } else if reply.value.submit {
            status := Submitted;
            done := true;
          } else {
            messages := messages + [AssistantMsg(answer.value)] + reply.value.messages;
            step := step + 1;
          }
        }
      }
      exitStatus := exitStatus[inst.id := status];
      var saved := SavePatch(rt, inst.id);
      if saved.Done? {
        rt.Cleanup();
      }
      escaped := saved.Raised?;
      final := rt.Now();
    }

    /** `Agent.run_dataset` up to gathering the patches; `aborted` when the
        status lookup of the skip test raises. */
    method RunDataset(instances: seq<Instance>) returns (aborted: bool)
      requires Valid()
      modifies this
      ensures DatasetResult(Records(), aborted) == DatasetRun(Rollouts(config), Resumed(old(Records())), instances)
    {
      exitStatus := exitStatus + statusFile;
      ghost var target := DatasetRun(Rollouts(config), Records(), instances);
      var i := 0;
      while i < |instances|
        invariant 0 <= i <= |instances| && Valid()
        invariant DatasetRun(Rollouts(config), Records(), instances[i..]) == target
      {
        var inst := instances[i];
        assert instances[i..][1..] == instances[i + 1..];
        if inst.id in patchDir {
          if inst.id !in exitStatus {
            return true;
          }
          if exitStatus[inst.id] != Error {
            i := i + 1;
            continue;
          }
        }
        RolloutAndRecord(inst);
        i := i + 1;
      }
      return false;
    }

    /** One rollout inside `run_dataset`: a rollout that raised is recorded
        as `error`, and the status file is rewritten. */
    method RolloutAndRecord(inst: Instance)
      requires Valid()
      modifies this
      ensures Records() == AfterRollout(old(Records()), inst.id, RolloutRun(config, inst))
    {
      var escaped, _ := Rollout(inst);
      if escaped {
        exitStatus := exitStatus[inst.id := Error];
      }
      statusFile := exitStatus;
    }
  }
}
