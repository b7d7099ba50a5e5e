/** What the two in-sandbox helper scripts (mnt/replace.py, mnt/read.py)
    share: the sandbox file system they see and their `safe_read`. */
module MntFiles {
  import opened Wrappers
  import opened PyText
  import opened Sandbox

  /** A path of the sandbox file system: a file whose utf-8 text (line
      endings as stored) is `raw` and which can or cannot be opened for
      writing (a read-only file can still be read), a directory, or a file
      that cannot be opened or decoded, with the exception text it raises. */
  datatype Entry = File(raw: string, writable: bool) | Directory | Unreadable(error: string)

  type Fs = map<string, Entry>

  /** What `f.write(text)` stores for a file opened in text mode: each
      `"\n"` becomes the platform's line separator. */
  function WriteText(text: string, p: Platform): string
  {
    if p == Windows then ReplaceAll(text, "\n", "\r\n") else text
  }

  /** How many times `safe_read` tries before giving up. */
  const SafeReadTrials := 3

  /** `safe_read`: up to three attempts to read a file as utf-8 text
      (`readAt(k)` is what the `k`-th attempt gets, `None` when it raises);
      the first success is returned and the third failure raises
      `FileNotFoundError`. */
  method SafeRead(readAt: nat -> Option<string>) returns (r: Outcome<string>, attempts: nat)
    ensures 1 <= attempts <= SafeReadTrials
    ensures forall k :: 0 <= k < attempts - 1 ==> readAt(k).None?
    ensures r.Done? ==> readAt(attempts - 1) == Some(r.value)
    ensures r.Raised? <==> forall k :: 0 <= k < SafeReadTrials ==> readAt(k).None?
  {
    attempts := 0;
    while attempts < SafeReadTrials
      invariant 0 <= attempts <= SafeReadTrials
      invariant forall k :: 0 <= k < attempts ==> readAt(k).None?
    {
      var s := readAt(attempts);
      attempts := attempts + 1;
      if s.Some? {
        return Done(s.value), attempts;
      }
    }
    return Raised, attempts;
  }
}
