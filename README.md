# Win-Agent orchestrator core, modelled in Dafny

Win-Agent runs an LLM coding agent on each instance of a SWE-bench style
dataset, inside a Linux or Windows sandbox, and collects the `git diff`
the agent leaves behind. This project models its orchestrator:

- `Agent.rollout` drives one instance. It builds the system and user
  prompts, then runs the step loop: query the model, dispatch its tool
  call, and append the turn and the tool messages. The loop ends on
  `submit`, when the step budget runs out, or on an exception. Then
  `save_patch` runs, and the sandbox is torn down.
- `Agent.run_dataset` merges the status file into the status map. It skips
  instances that already have a patch and a non-`error` status. It
  rewrites `exit_status.json` after every rollout.
- `Tools` is the tool dispatcher. It registers `submit`, enforces one call
  per turn, and answers a malformed call with a corrective message
  instead of failing.
- The host-side tools `read`, `create`, `string_replace` and `shell` pass
  their arguments to the sandbox through temp files in the shared `mnt/`
  directory.
- The in-sandbox scripts `mnt/read.py` (`view`) and `mnt/replace.py`
  (`string_replace`) do the reading and editing.
- Patch cleanup (`save_patch`, `gather_patch`), the encoding fallback
  (`read_with_encoding_problem`, `safe_read`) and the run id built in
  `main.py`.

Modules, one per file:

| file | module | what it holds |
|---|---|---|
| `wrappers.dfy` | `Wrappers` | `Option`, and `Outcome` (returned or raised) |
| `pytext.dfy` | `PyText` | the Python `str` operations the code relies on, written out exactly: `find`, `count` and `replace` (including an empty pattern), `strip(chars)`, `splitlines` with all of Python's line boundaries, `"\n".join`, slicing with negative indices, `int` to `str` |
| `json.dfy` | `Json` | tool-call arguments as JSON values; `args.get(key)`, where JSON `null` reads as absent |
| `codecs.dfy` | `Codecs` | the utf-8 → utf-16 → utf-16-le → utf-16-be → latin-1 fallback, then lossy utf-8, with the text-mode newline translation applied to the result |
| `sandbox.dfy` | `Sandbox` | the `Runtime` handle as a class that records every command, host write and teardown; the sandbox's replies and the shared directory are functions of that record |
| `utils.dfy` | `Utils` | `src/utils.py` |
| `mnt_files.dfy`, `mnt_read.dfy`, `mnt_replace.dfy` | `MntFiles`, `MntRead`, `MntReplace` | the two in-sandbox scripts over a map from paths to files |
| `tool_set.dfy` | `ToolSet` | the four tool front-ends: a pure argument check, a pure specification of the whole call, and a method proved equal to it |
| `dispatch.dfy` | `Dispatch` | `Tools`: registration, and `tool_call` as a specification function plus a method proved equal to it |
| `patch.dfy` | `Patch` | patch cleanup and `gather_patch` |
| `agent.dfy` | `AgentRun` | the step loop, `rollout` and `run_dataset`: specification functions, lemmas, and the `Agent` class whose methods are proved equal to them |
| `main.dfy` | `Launch` | `run_id` and the API-key override |

Every method that changes state is tied by its `ensures` to a pure
function of the environment and the state before the call. The source's
promises are then proved as lemmas about those functions. The step loop
takes the dispatcher as a function value, and `AgentRun.ToolCaller`
supplies `Tools.tool_call`. The instance loop likewise takes the rollout
(`AgentRun.Rollouts`). So the loop lemmas hold for any dispatcher and any
rollout. Examples:

- at most `max_steps` model queries;
- `submit` ends the loop exactly when it is the only call;
- the conversation is the prompts followed by each turn and its replies;
- a patch is always attempted after the loop;
- resuming a finished run does nothing;
- a unique match is spliced in place.

Where the specification and the code disagree, the model follows the code:

- There is no `exit_timeout` status, no per-instance timeout watchdog, no
  worker pool and no ledger lock. Instances run one after another, and
  the status is one of `submitted`, `exit_cost` and `error`.
- Sandbox teardown is not unconditional. When `save_patch` raises inside
  the `finally` block, `container.cleanup()` is skipped
  (`AgentRun.RolloutFinally`).
- When an instance has a patch file but no status entry, the skip test
  raises `KeyError`. Nothing catches it, so `run_dataset` stops
  (`AgentRun.SkipDecision`).

## Model

| member | source | states |
|---|---|---|
| PyText.Find | mnt/replace.py:52 | `str.find`: the index of the first occurrence, or -1 when there is none |
| PyText.CountZeroIffAbsent | mnt/replace.py:43-47 | `count` is 0 exactly when `find` gives -1, so "not found" and "no matches" agree |
| PyText.ReplaceOnce | mnt/replace.py:48 | when the pattern occurs exactly once, `replace` splices the replacement at the found index and keeps the rest |
| PyText.ReplaceAbsent | src/agent.py:99-100 | replacing a pattern that does not occur leaves the text unchanged |
| PyText.ReplaceSkipsPrefix | src/agent.py:99-100 | a prefix none of whose characters can start the pattern is kept, and the rest is replaced on its own |
| PyText.ReplaceCharPointwise | main.py:10 | replacing one character by another keeps the length and changes exactly the matching positions |
| PyText.Strip | src/tool_set/string_replace.py:36 | `strip(chars)` returns a contiguous slice with no stripped character at either end, and leaves a text alone when neither end is strippable |
| PyText.StripEmptyIff | src/agent.py:119 | a text strips to empty exactly when all its characters are stripped |
| PyText.StripBetween | src/tools.py:62 | stripping removes exactly the strippable padding around a core whose ends are not strippable |
| PyText.UniversalNewlines | mnt/replace.py:37-38 | reading in text mode leaves no `\r` and never lengthens the text; a text without `\r` is unchanged |
| PyText.UniversalNewlinesPrefix | mnt/replace.py:37-38 | text before the first `\r` is read unchanged |
| PyText.UniversalNewlinesAtCrLf | mnt/replace.py:37-38 | `\r\n` is read as one `\n`, with the text before it kept |
| PyText.UniversalNewlinesAtCr | mnt/replace.py:37-38 | a `\r` not followed by `\n` is read as `\n`, with the text before it kept |
| PyText.SplitLines | mnt/read.py:33 | `splitlines` yields at most one line per character, none containing a line boundary |
| PyText.SplitLinesSingle | mnt/read.py:33 | a non-empty text without a boundary is one line |
| PyText.SplitLinesAt | mnt/read.py:33 | a boundary-free text, then a boundary (not a `\r` before `\n`), then the rest: the first line is that text and the rest is split on its own |
| PyText.SplitLinesAtCrLf | mnt/read.py:33 | `\r\n` after a boundary-free text is one boundary, opening no empty line |
| PyText.SplitLinesOfJoin | mnt/read.py:33 | `splitlines` undoes `"\n".join` of boundary-free lines whose last line is not empty |
| PyText.SplitLinesUniversal | mnt/read.py:32-33 | `splitlines` sees the same lines whether or not the file was read with universal newlines |
| PyText.JoinEnds | mnt/read.py:41 | a join ends with the last character of its last part |
| PyText.PySlice | mnt/read.py:38 | Python slicing: an in-range slice is the plain subsequence; an empty or inverted range gives `[]` |
| PyText.NumberedReadBack | mnt/read.py:40 | every numbered line reads back: before its first `|` is the number `base + k`, after it the original line |
| Json.Get | src/tool_set/read.py:33 | `args.get(key)` on a non-mapping fails; a missing key or a `null` is absent; otherwise it is the stored value |
| Codecs.FirstDecodable | src/utils.py:14-20 | the encoding chosen is the first in order that decodes, with all earlier ones failing |
| Codecs.DecodeWithFallbackChoice | src/utils.py:13-24 | the text is the first successful decoding in fallback order, or lossy utf-8 when none succeeds |
| Codecs.Latin1MakesLossyUnreachable | src/utils.py:21-24 | since latin-1 decodes any bytes, the lossy branch is reached only when latin-1 fails |
| Sandbox.TempName | src/tool_set/base.py:20-21 | a temp file is `mnt/<id>.txt` |
| Sandbox.HostText | src/tool_set/read.py:54-55 | a host read in text mode sees the shared file with newlines translated, and fails when the file is absent |
| Sandbox.Runtime.SendCommand | src/tool_set/shell.py:28 | one command is appended to the record, and the reply is the sandbox's answer to the record so far |
| Sandbox.Runtime.WriteHost | src/tool_set/read.py:46-47 | a host write of a shared file is appended to the record |
| Sandbox.Runtime.NewTemp | src/tool_set/base.py:20-21 | the next temp name in draw order; the record is unchanged and the draw count grows by one |
| Sandbox.Runtime.Cleanup | src/agent.py:173 | teardown is appended to the record |
| Utils.ResetCwd | src/utils.py:8-10 | exactly the platform's cd command is sent |
| Utils.ReadWithEncodingProblem | src/utils.py:13-24 | a missing file raises; otherwise the result is the fallback decoding |
| Utils.SafeRead | src/utils.py:27-39 | at most three attempts; every failed attempt comes before the first success; it raises exactly when all three fail |
| MntFiles.SafeRead | mnt/replace.py:5-17 | the same three-attempt read, inside the sandbox, as utf-8 |
| MntReplace.EditText | mnt/replace.py:43-48 | more than one match refuses, zero matches refuses, exactly one match edits |
| MntReplace.EditTextSplice | mnt/replace.py:48 | the edit of a unique match is the text with the new string spliced in at the match |
| MntReplace.StringReplace | mnt/replace.py:32-62 | the script raises exactly when a read-only file has a unique match (opening it for writing fails); otherwise no path is added or removed, and the file system changes only for a writable file with exactly one match |
| MntReplace.StringReplaceRefusals | mnt/replace.py:33-47 | not-a-file, unreadable, several matches and no match each return their message and write nothing |
| MntReplace.StringReplaceSplice | mnt/replace.py:48-50 | a unique match in a writable file writes back the read text with the match replaced, and only that path changes |
| MntReplace.OnlySuccessReportsSuccess | mnt/replace.py:49-62 | on a regular file, a reply starting with the success header is written exactly when the file is writable and has a unique match |
| MntReplace.DisplayShape | mnt/replace.py:52-61 | the window holds at most the new string's lines plus 15 lines on either side, numbered consecutively, each the file's line at that number |
| MntReplace.WindowAnchorPrecedesEdit | mnt/replace.py:52 | the window is anchored at the first occurrence of the new string, which is never after the edit |
| MntReplace.WindowAnchorCanPrecedeEdit | mnt/replace.py:52 | the anchor can be strictly before the edit: replacing `b` by `a` in `ab` anchors at 0, not at 1 |
| MntReplace.EmptyReplacementShowsFileStart | mnt/replace.py:52-58 | an empty new string anchors the window at the top of the file |
| MntReplace.LineEndingsRewritten | mnt/replace.py:37-50 | the script as written turns `a\r\nb` into `a\nc` on Linux when replacing `b` by `c` |
| MntReplace.StringReplaceExact | mnt/replace.py:32-50 | the byte-for-byte edit raises exactly on a read-only file with one match, and otherwise changes the file system only for a writable file with exactly one match |
| MntReplace.ExactReplaceKeepsLineEndings | mnt/replace.py:48-50 | on a writable file the byte-for-byte edit changes only the matched span, so line endings elsewhere are kept |
| MntRead.View | mnt/read.py:28-41 | a missing path gives "not found"; it raises exactly when the path exists but is not a readable file |
| MntRead.ViewStartTooFar | mnt/read.py:34-35 | a start past the last line reports the line count |
| MntRead.ViewRange | mnt/read.py:37-40 | for `1 <= start <= end`, lines `start` to `min(end, n)` are shown, numbered from `start` |
| MntRead.ViewStartZero | mnt/read.py:37-40 | `start = 0` slices from index -1, so at most the last line is shown, numbered 0 |
| MntRead.ViewWholeFile | mnt/read.py:21-22 | the -1 defaults, or `start > end`, show the whole file numbered from 1 |
| MntRead.ViewFullRangeIsDefault | mnt/read.py:37-40 | lines 1 to n of an n-line file are the same listing as the default |
| MntRead.NumberedJoinNoTrailingNewline | mnt/read.py:40-41 | a numbered listing whose last line has no newline does not end with one |
| MntRead.ViewNoTrailingNewline | mnt/read.py:28-41 | every listing of a readable file is non-raising and never ends with a newline |
| ToolSet.Commands | src/tool_set/read.py:50-56 | the commands of a record are its command events in order, never more than its events |
| ToolSet.StripQuotesSlice | src/tool_set/string_replace.py:36 | the stripped path is a slice of the argument, with no backtick at either end |
| ToolSet.StripQuotesPlain | src/tool_set/string_replace.py:36 | a path without a quote character at either end is unchanged |
| ToolSet.ReadCheck | src/tool_set/read.py:33-44 | a missing path is refused; a negative start or `start > end` is refused only when both bounds are given; a lone bound is ignored; a valid range becomes `--start s --end e` |
| ToolSet.ReadRun | src/tool_set/read.py:31-57 | refusals return their message and touch nothing; a crash raises with nothing sent; the record only grows |
| ToolSet.Read | src/tool_set/read.py:31-57 | the tool as a method on the sandbox handle equals its specification |
| ToolSet.ReadPlanCommands | src/tool_set/read.py:45-57 | a successful read writes the path, sends exactly cd, `python -m mnt.read ...` and the removal of both temp files, and returns the output file as read before the removal |
| ToolSet.ReadPathVerbatim | src/tool_set/read.py:45-47 | read writes the path argument as given, without stripping quotes |
| ToolSet.ReplaceCheck | src/tool_set/string_replace.py:33-42 | the checks run in the order path, `old_string`, `new_string`; an accepted call carries the quote-stripped path |
| ToolSet.ReplaceRun | src/tool_set/string_replace.py:31-63 | refusals return their message and touch nothing; crashes send nothing; the record only grows |
| ToolSet.Replace | src/tool_set/string_replace.py:31-63 | the tool as a method equals its specification |
| ToolSet.ReplacePlanCommands | src/tool_set/string_replace.py:44-63 | three temp files with the path and both strings verbatim, then exactly cd, `python -m mnt.replace ...` naming all four files and their removal; the output file's text is returned |
| ToolSet.RunReplaceScript | src/tool_set/string_replace.py:54-63 | once the inputs are written: the next temp file is the output file; cd and `mnt.replace` are sent; a missing output file raises; otherwise its text is returned and all four files are removed |
| ToolSet.CreateCheck | src/tool_set/create.py:29-35 | a missing path or content is refused in that order; an accepted call carries the quote-stripped path |
| ToolSet.CreateRun | src/tool_set/create.py:27-48 | refusals return their message and touch nothing; the record only grows |
| ToolSet.Create | src/tool_set/create.py:27-48 | the tool as a method equals its specification |
| ToolSet.CreatePlanCommands | src/tool_set/create.py:36-48 | content written to a temp file, then exactly cd, the platform's removal of the target, `mv`, and removal of the temp file; success message exactly when `mv` exits with 0, otherwise `mv`'s output |
| ToolSet.CreateWith | src/tool_set/create.py:36-48 | with string content, the method equals the specification of create on that content |
| ToolSet.ShellRun | src/tool_set/shell.py:23-29 | a missing or null command is refused without sending anything; a string command is sent exactly as given, and the reply is the sandbox's answer to it; arguments that are not an object raise |
| ToolSet.Shell | src/tool_set/shell.py:23-29 | the tool as a method equals its specification |
| ToolSet.CommandsAfterWrites | src/tool_set/read.py:45-56 | host writes add no commands: the commands after them are exactly those sent |
| Dispatch.ToolKindOf | src/tools.py:17-23 | the tool table; only the name `submit` maps to the submit tool |
| Dispatch.SchemaName | src/tools.py:17-23 | each tool's schema name maps back to that tool |
| Dispatch.WithSubmit | src/tools.py:27-28 | `submit` is appended exactly when it is absent; the given list stays a prefix |
| Dispatch.Corrections | src/tools.py:45-57 | one corrective tool message per call, in order, with that call's id and name |
| Dispatch.DispatchWrongCount | src/tools.py:40-57 | no calls gives one user message; several calls give one tool message each; nothing runs |
| Dispatch.DispatchSingle | src/tools.py:59-85 | a single submit (after trimming and lower-casing) sets the flag; an unknown name lists the available tools; bad JSON is quoted back |
| Dispatch.DispatchExecutes | src/tools.py:86-94 | the tool runs exactly when a single, available, non-submit call has parsable arguments; its text is wrapped in one tool message; otherwise the sandbox is untouched |
| Dispatch.DispatchSubmitOnly | src/tools.py:59-63 | only a lone submit call raises the flag, and it comes without messages |
| Dispatch.SubmitNameCases | src/tools.py:62 | a name counts as `submit` exactly when, stripped of whitespace, it spells `submit` in any mix of cases |
| Dispatch.SubmitIsSubmitName | src/tools.py:62 | the registered name `submit` is recognised, so the submit tool itself never runs |
| Dispatch.Tools.Init | src/tools.py:25-29 | the caller's list gets `submit` appended in place; construction succeeds exactly when every name is in the tool table |
| Dispatch.Tools.ToolCall | src/tools.py:31-94 | `tool_call` as a method, including the loop over several calls, equals its specification |
| Dispatch.RunTool | src/tools.py:91 | runs the named tool's front-end and equals its specification |
| Patch.CleanPatchCut | src/agent.py:99-102 | the cleaned patch starts at the first `diff --git`; without one, only the last character is kept |
| Patch.CleanDiffKept | src/agent.py:99-102 | a noise-free text starting with `diff --git` is kept as is |
| Patch.CleanPatchIdempotent | src/agent.py:99-102 | when removing the noise leaves no noise behind, cleaning the cleaned patch again changes nothing, with or without a `diff --git` marker |
| Patch.ShortTextKept | src/agent.py:99-102 | a text of at most one character is its own cleanup |
| Patch.CleanPatchNotIdempotent | src/agent.py:99-102 | without that condition it fails: `diff --git PS>\nPS>PS>\nPS>promptprompt` cleans to `diff --git PS>\nPS>prompt`, which cleans to `diff --git ` |
| Patch.MissingMarkerKeepsLastChar | src/agent.py:101-102 | with no marker, `find` gives -1 and the output is `"s"` for `"no changes"` |
| Patch.PatchFileName | src/agent.py:103 | the instance id can be recovered from its patch file name |
| Patch.InstanceIdOf | src/agent.py:118 | the key with the suffix removed is a prefix of the file name |
| Patch.StripLosesInstanceId | src/agent.py:118 | as written, `strip(".diff")` keys `django-1.diff` as `jango-1` |
| Patch.StripKeepsPlainId | src/agent.py:118 | an id neither starting nor ending with `.`, `d`, `i` or `f` survives `strip(".diff")` |
| Patch.CollectKeys | src/agent.py:112-118 | the keys of the result are exactly the files' keys |
| Patch.CollectLastWins | src/agent.py:118 | each key holds the cleaned text of the last file with that key |
| Patch.CollectBySuffix | src/agent.py:118 | removing the `.diff` suffix keys every saved instance under its own id with its cleaned patch |
| Patch.EmptyCanExceedPatches | src/agent.py:118-121 | as written, two empty files that strip to one key count 2 empties among 1 patch |
| Patch.GatherPatch | src/agent.py:108-122 | the loop over the listing computes the collected map and the empty count |
| AgentRun.StepsQueries | src/agent.py:148-164 | for any tool handler: at most one query per step; `error` exactly when the last query or its dispatch raised; `exit_cost` exactly when every query got a reply and none submitted, and then every step queried |
| AgentRun.StepsSubmit | src/agent.py:157-159 | the loop ends `submitted` exactly when the last reply sets the flag, and no earlier one does |
| AgentRun.StepsTranscript | src/agent.py:161-162 | each non-submitting turn is appended, then its reply's messages, in order |
| AgentRun.SaveRun | src/agent.py:81-106 | cd and the diff command are sent; a missing diff file raises; otherwise the cleaned fallback decoding is saved and the sandbox file removed |
| AgentRun.RolloutQueries | src/agent.py:149-164 | at most `max_steps` queries; `error` exactly when a query or dispatch raised; no raise and no submission means `exit_cost` after exactly `max_steps` queries; zero steps give `exit_cost` at once |
| AgentRun.RolloutConversation | src/agent.py:141-162 | the conversation is the system and user prompts followed by the transcript; `submitted` means the last reply submitted |
| AgentRun.RolloutFinally | src/agent.py:171-173 | after the loop, however it ended, cd and the diff command are sent; teardown happens exactly when saving did not raise |
| AgentRun.SkipDecision | src/agent.py:186-189 | skip exactly when the patch exists and the status is not `error`; `KeyError` exactly when the patch exists without a status |
| AgentRun.AfterRollout | src/agent.py:190-198 | the instance's status is the loop status, or `error` if the rollout raised; a saved patch is recorded; other statuses are kept; the status file equals the map |
| AgentRun.Resumed | src/agent.py:178-183 | statuses from the file override, and other in-memory statuses stay |
| AgentRun.DatasetRecordsAll | src/agent.py:184-198 | for any rollout: no status is lost, and without a `KeyError` every instance ends with a status |
| AgentRun.DatasetLedger | src/agent.py:197-198 | once anything ran, the status file equals the status map; otherwise both are untouched |
| AgentRun.DatasetResumeIdle | src/agent.py:186-189 | resuming when every instance has a patch and a non-`error` status changes nothing |
| AgentRun.Agent.SavePatch | src/agent.py:81-106 | `save_patch` as a method equals `SaveRun`, and records the patch file exactly when it succeeds |
| AgentRun.Agent.Rollout | src/agent.py:124-175 | `rollout` as a method: the status map gains the loop's status, the patch directory gains the saved patch, and the result equals `RolloutRun` |
| AgentRun.Agent.RolloutAndRecord | src/agent.py:190-198 | one rollout inside `run_dataset` updates the books exactly as `AfterRollout` says |
| AgentRun.Agent.RunDataset | src/agent.py:177-198 | `run_dataset` as a method equals `DatasetRun` after resuming from the status file |
| Launch.RunId | main.py:10 | the run id is dataset, `_`, model, with every `/` and `\` turned into `_` and nothing else changed |
| Launch.WithApiKey | main.py:29 | the configuration gets the command-line key and is otherwise unchanged |

## Left out

- Setup of the sandbox (`Runtime.from_launch_image`, `install_py`, `init_git`, `set_mnt_permissions`), the logger and every `time.sleep`: the model takes setup to succeed. When setup raises (src/agent.py:133-139) it does so before the `try`, so the exception leaves `rollout` without `save_patch` or `cleanup`, and `run_dataset` records `error`; `AgentRun.RolloutRun` always runs the loop and `save_patch`, so that path is not modelled.
- `src/runtime.py` is not part of this model. Launching the sandbox and sending commands are abstract: the sandbox answers through a reply function over the record of events so far, and the shared `mnt/` directory is a host-side file function.
- `src/llm.py`: the model is an answer function from the conversation to a turn or a raised exception. Retries inside it are not modelled.
- The `preds.json` step at the end of `run_dataset` (src/agent.py:199-200): the file is opened for reading and then dumped to. That raises whenever it runs, so the model stops `RunDataset` before it, and `gather_patch` is modelled on its own (`Patch.GatherPatch`).
- Dataset loading, YAML parsing and argument parsing in `main.py`: configuration is a parameter.
- The one-hour timeout passed to the shell command, and `to_observation`: the reply text is abstract.
- ToolSet.ShellRun: a command that is not a string is taken to raise. What `send_command` does with it depends on `src/runtime.py`, which is not part of this model.
- `src/tool_set/submit.py`: the submit tool is only a schema and is never executed, as `Dispatch.SubmitIsSubmitName` shows.
- `uuid.uuid4()`: the `k`-th temp name uses an abstract uuid function of `k`. Nothing is assumed about uuids colliding.
- The message dictionaries and model responses are datatypes; `model_dump` and the JSON logging of them are not modelled.
- Dispatch.ListRepr: the Python `repr` of the tool list is written out for names without quotes or backslashes, which the registered tool names are; `repr`'s escaping of other names is not modelled.
- JSON floats and big-integer formatting: arguments are null, booleans, integers, strings, arrays and objects.
- PyText.AsciiLower: `str.lower` is modelled on ASCII letters only, because Unicode case mapping is out of scope. Python also lowers the Kelvin sign U+212A to `k` and U+0130 to `i` plus U+0307; neither changes whether a name lowers to `submit`.
- The status file: an absent or blank file is modelled as the empty map. A file that does not parse as JSON makes `json.loads` raise at src/agent.py:182, which ends `run_dataset` before any rollout; the model takes the file's parsed contents as given and has no such path.
- The translation of newlines when the host reads output files is modelled as universal newlines; encodings other than utf-8 on the host are not.
- Worker pools, locks and timeout watchdogs do not exist in this code, so none are modelled.

## Findings

| source | as written | input that shows it | evidently intended | confidence | as-written member | corrected member |
|---|---|---|---|---|---|---|
| src/agent.py:118 | `patch_file.strip(".diff")` removes any of `.`, `d`, `i` and `f` from both ends of the file name | `django-1.diff` gets key `jango-1`; `a.diff` and `ad.diff` both get key `a`, so the empty count exceeds the patches | remove the `.diff` suffix only, keying each patch by its instance id | high, not executed | Patch.StripLosesInstanceId | Patch.CollectBySuffix |
| mnt/replace.py:37-50 | the whole file is read and written back in text mode, so every line ending in it is rewritten | replacing `b` by `c` in a file holding `a\r\nb` on Linux stores `a\nc` | change only the matched span, leaving line endings elsewhere as stored | medium, not executed | MntReplace.LineEndingsRewritten | MntReplace.ExactReplaceKeepsLineEndings |
