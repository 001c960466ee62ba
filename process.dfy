/** How the screens see a subprocess: the result triple of `subprocess.run`, the exception it
    may raise instead, and the text each screen shows for it. */
module Process {
  import opened PyText

  datatype Option<T> = None | Some(value: T)

  /** The result of `subprocess.run(..., capture_output=True, text=True)`. */
  datatype Completed = Completed(returncode: int, stdout: string, stderr: string)

  /** One call of `subprocess.run`: it completes, or it raises before any result exists
      (the executable is missing, say); `reason` is `str(e)`. */
  datatype Launch = Ran(result: Completed) | Raised(reason: string)

  /** What an action decides before anything runs: refuse with a message, or run a command. */
  datatype Plan<C> = Refuse(message: string) | Run(command: C)

  /** Whether a screen's constructor returns, or raises out of it. */
  datatype Startup = Opened | Crashed(error: string)

  /** What running a piece of handler code leaves: the state it reached, or the text of the
      exception that escaped it. */
  datatype Attempt<T> = Done(state: T) | Raise(error: string)

  /** `setPlainText(text)` (or `setText`) on a text widget that the constructor may not have
      created yet, None until the line that creates it: the widget then holds `text`, or
      reading the attribute raises AttributeError. `rest` is the other state carried along. */
  function SetText<T>(rest: T, widget: Option<string>, cls: string, attr: string, text: string): Attempt<(T, Option<string>)> {
    if widget.Some? then Done((rest, Some(text))) else Raise(NoAttribute(cls, attr))
  }

  /** A constructor returns when the handler it calls returned, and otherwise raises what
      escaped the handler. */
  function StartupOf<T>(a: Attempt<T>): Startup {
    match a
    case Done(_) => Opened
    case Raise(e) => Crashed(e)
  }

  /** `str(e)` of the AttributeError raised on reading an attribute that was never assigned. */
  function NoAttribute(cls: string, attr: string): string {
    "'" + cls + "' object has no attribute '" + attr + "'"
  }

  /** The text shown for a completed run: the output on exit code 0, the error stream otherwise. */
  function Shown(c: Completed): string {
    if c.returncode == 0 then c.stdout else "Error: " + c.stderr
  }

  /** The text `run_btrfs_command` and its counterparts leave in the output area. */
  function Outcome(l: Launch): string {
    match l
    case Ran(c) => Shown(c)
    case Raised(e) => "Error executing command: " + e
  }

  /** `['sudo', 'btrfs'] + command.split()`. */
  function SudoBtrfs(command: string): (argv: seq<string>)
    ensures |argv| >= 2 && argv[..2] == ["sudo", "btrfs"]
    ensures forall i :: 2 <= i < |argv| ==> IsWord(argv[i])
  {
    ["sudo", "btrfs"] + Split(command)
  }

  /** A shell string that starts with "sudo btrfs " splits into those two words and the rest. */
  lemma SudoBtrfsWords(rest: string)
    ensures Split("sudo btrfs " + rest) == ["sudo", "btrfs"] + Split(rest)
  {
    assert "sudo btrfs " + rest == "sudo" + " " + "btrfs" + " " + rest;
    assert IsWord("sudo") && IsWord("btrfs");
    SplitTwoWordsThen("sudo", "btrfs", rest);
  }

  /** A command string made of a command group, a verb and operands becomes `sudo btrfs`, the
      group, the verb and the operands' words. */
  lemma GroupVerbArgv(group: string, verb: string, operands: string)
    requires IsWord(group) && IsWord(verb)
    ensures SudoBtrfs(group + " " + verb + " " + operands) ==
      ["sudo", "btrfs", group, verb] + Split(operands)
  {
    SplitTwoWordsThen(group, verb, operands);
  }

  /** The shown text gives the stream back: for one exit code, runs that show the same text
      had the same output (code 0) or the same error stream (any other code). */
  lemma ShownRecoversStream(c: Completed, d: Completed)
    requires c.returncode == d.returncode && Shown(c) == Shown(d)
    ensures c.returncode == 0 ==> c.stdout == d.stdout
    ensures c.returncode != 0 ==> c.stderr == d.stderr
  {
    if c.returncode != 0 {
      assert c.stderr == Shown(c)[7..];
      assert d.stderr == Shown(d)[7..];
    }
  }

  /** A failed run is always marked: its text starts with "Error: " and the error stream follows. */
  lemma FailureIsMarked(c: Completed)
    requires c.returncode != 0
    ensures StartsWith(Shown(c), "Error: ") && Shown(c)[7..] == c.stderr
  {
  }
}
