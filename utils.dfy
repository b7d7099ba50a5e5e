/** The host-side helpers of src/utils.py. */
module Utils {
  import opened Wrappers
  import opened Codecs
  import opened Sandbox
  import PyText

  /** How many times `safe_read` tries before giving up. */
  const SafeReadTrials := 3

  method ResetCwd(rt: Runtime)
    modifies rt
    ensures rt.trace == old(rt.trace) + [Command(CwdCommand(rt.env.platform))]
    ensures rt.temps == old(rt.temps)
  {
    var _ := rt.SendCommand(CwdCommand(rt.env.platform));
  }

  /** Decode a host file trying utf-8, utf-16, utf-16-le, utf-16-be and
      latin-1 in turn, then lossy utf-8; a missing file raises. */
  method ReadWithEncodingProblem(c: Codec, file: Option<Bytes>) returns (r: Outcome<string>)
    ensures file.None? ==> r == Raised
    ensures file.Some? ==> r == Done(DecodeWithFallback(c, file.value))
  {
    if file.None? {
      return Raised;
    }
    var b := file.value;
    var i := 0;
    while i < |FallbackOrder|
      invariant 0 <= i <= |FallbackOrder|
      invariant forall j :: 0 <= j < i ==> c.decode(FallbackOrder[j], b).None?
    {
      var d := c.decode(FallbackOrder[i], b);
      if d.Some? {
        return Done(PyText.UniversalNewlines(d.value));
      }
      i := i + 1;
    }
    return Done(PyText.UniversalNewlines(c.lossy(b)));
  }

  /** `safe_read`: up to three attempts, each on what the file holds by
      then (`fileAt(k)` for the `k`-th attempt); any failure is retried and
      the third failure raises. */
  method SafeRead(c: Codec, fileAt: nat -> Option<Bytes>) returns (r: Outcome<string>, attempts: nat)
    ensures 1 <= attempts <= SafeReadTrials
    ensures forall k :: 0 <= k < attempts - 1 ==> fileAt(k).None?
    ensures r.Done? ==> fileAt(attempts - 1).Some? && r.value == DecodeWithFallback(c, fileAt(attempts - 1).value)
    ensures r.Raised? <==> forall k :: 0 <= k < SafeReadTrials ==> fileAt(k).None?
  {
    attempts := 0;
    while attempts < SafeReadTrials
      invariant 0 <= attempts <= SafeReadTrials
      invariant forall k :: 0 <= k < attempts ==> fileAt(k).None?
    {
      var s := ReadWithEncodingProblem(c, fileAt(attempts));
      attempts := attempts + 1;
      if s.Done? {
        return s, attempts;
      }
    }
    return Raised, attempts;
  }
}
