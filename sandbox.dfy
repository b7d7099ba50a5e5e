/** The execution sandbox as the agent sees it: a shell that answers
    commands, a directory `mnt/` shared between host and sandbox, fresh
    temporary names, and the JSON parser and observation formatter the
    dispatcher uses. Everything the host cannot see is a parameter of the
    `Env`; replies and host-visible files are functions of the trace of
    everything the agent did to the sandbox so far. */
module Sandbox {
  import opened Wrappers
  import opened Codecs
  import opened Json
  import PyText

  datatype Platform = Linux | Windows

  /** The reply of the sandbox shell to one command. */
  datatype Response = Response(output: string, exitCode: int)

  /** What the agent does to the sandbox: send a shell command, write a file
      on the host side of the shared directory, or tear the sandbox down. */
  datatype Event = Command(text: string) | HostWrite(path: string, text: string) | Teardown

  datatype Env = Env(
    platform: Platform,
    respond: (seq<Event>, string) -> Response,
    hostFile: (seq<Event>, string) -> Option<Bytes>,
    codec: Codec,
    uuid: nat -> string,
    observe: Response -> string,
    parse: string -> Option<Json>)

  /** Everything the agent has done to one sandbox, and how many temporary
      names it has drawn. */
  datatype State = State(trace: seq<Event>, temps: nat)

  /** The outcome of an operation together with the sandbox state after it. */
  datatype Ran<+T> = Ran(result: Outcome<T>, st: State)

  /** The command that returns the shell to the repository root. */
  function CwdCommand(p: Platform): (c: string)
    ensures p == Windows ==> c == "cd C:\\testbed  "
    ensures p == Linux ==> c == "cd /testbed  "
  {
    if p == Windows then "cd C:\\testbed  " else "cd /testbed  "
  }

  /** The `k`-th temporary name: a fresh uuid under the shared directory. */
  function TempName(env: Env, k: nat): (name: string)
    ensures |name| >= 8 && name[..4] == "mnt/" && name[|name| - 4..] == ".txt"
  {
    "mnt/" + env.uuid(k) + ".txt"
  }

  /** Reading a host file with `open(path, encoding="utf-8").read()`: `None`
      when the file is missing or is not valid utf-8. */
  function HostText(env: Env, trace: seq<Event>, path: string): (r: Option<string>)
    ensures r.Some? ==> env.hostFile(trace, path).Some? && '\r' !in r.value
    ensures env.hostFile(trace, path).None? ==> r.None?
  {
    match env.hostFile(trace, path)
    case None => None
    case Some(b) =>
      match env.codec.decode(Utf8, b)
      case None => None
      case Some(t) => Some(PyText.UniversalNewlines(t))
  }

  /** One sandbox in use by the agent. */
  class Runtime {
    const env: Env
    var trace: seq<Event>
    var temps: nat

    constructor (env: Env)
      ensures this.env == env && trace == [] && temps == 0
    {
      this.env := env;
      trace := [];
      temps := 0;
    }

    function Now(): State
      reads this
    {
      State(trace, temps)
    }

    method SendCommand(command: string) returns (res: Response)
      modifies this
      ensures res == env.respond(old(trace), command)
      ensures trace == old(trace) + [Command(command)] && temps == old(temps)
    {
      res := env.respond(trace, command);
      trace := trace + [Command(command)];
    }

    /** `with open(path, "w") as f: f.write(text)` on the host. */
    method WriteHost(path: string, text: string)
      modifies this
      ensures trace == old(trace) + [HostWrite(path, text)] && temps == old(temps)
    {
      trace := trace + [HostWrite(path, text)];
    }

    method ReadHost(path: string) returns (r: Option<string>)
      ensures r == HostText(env, trace, path)
    {
      r := HostText(env, trace, path);
    }

    method ReadHostBytes(path: string) returns (r: Option<Bytes>)
      ensures r == env.hostFile(trace, path)
    {
      r := env.hostFile(trace, path);
    }

    /** `Tool.temp_file()`. */
    method NewTemp() returns (name: string)
      modifies this
      ensures name == TempName(env, old(temps))
      ensures trace == old(trace) && temps == old(temps) + 1
    {
      name := TempName(env, temps);
      temps := temps + 1;
    }

    method Cleanup()
      modifies this
      ensures trace == old(trace) + [Teardown] && temps == old(temps)
    {
      trace := trace + [Teardown];
    }
  }
}
