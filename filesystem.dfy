/** The filesystem screen: seven buttons, each naming an operation of `btrfs filesystem` with
    fixed arguments; the output area shows the outcome of the one run. */
module Filesystem {
  import opened Process

  /** The operation names the buttons send, in the order the buttons are laid out. */
  const Buttons: seq<string> := ["df", "du", "show", "sync", "defragment", "resize", "mkswapfile"]

  /** The operations run on the root filesystem, "/". */
  const RootOperations: seq<string> := ["df", "du", "show", "sync", "defragment"]

  /** The fixed size resize is given, and the fixed path of the swap file. */
  const NewSize := "10G"
  const SwapFile := "/mnt/swapfile"

  /** `str(e)` of the UnboundLocalError raised when no branch assigned `result` (the wording of
      Python 3.11 and later). */
  const UnboundResult := "cannot access local variable 'result' where it is not associated with a value"

  /** The argument vector of the if/elif table, when the name is in it. */
  function FilesystemArgv(operation: string): (r: Option<seq<string>>)
    ensures r.Some? <==> operation in Buttons
    ensures r.Some? ==> |r.value| >= 4 && r.value[..4] == ["sudo", "btrfs", "filesystem", operation]
  {
    if operation in RootOperations then Some(["sudo", "btrfs", "filesystem", operation, "/"])
    else if operation == "resize" then Some(["sudo", "btrfs", "filesystem", "resize", NewSize, "/"])
    else if operation == "mkswapfile" then Some(["sudo", "btrfs", "filesystem", "mkswapfile", SwapFile])
    else None
  }

  /** `run_disk_operation`: the text left in the output area. A name outside the table leaves
      `result` unassigned, and reading it raises inside the `try`, so the handler shows that. */
  function DiskOperationOutput(operation: string, exec: seq<string> -> Launch): (out: string)
    ensures FilesystemArgv(operation).Some? ==> out == Outcome(exec(FilesystemArgv(operation).value))
    ensures FilesystemArgv(operation).None? ==> out == "Error executing command: " + UnboundResult
  {
    match FilesystemArgv(operation)
    case Some(argv) => Outcome(exec(argv))
    case None => Outcome(Raised(UnboundResult))
  }

  /** df, du, show, sync and defragment take the root filesystem as their only operand. */
  lemma RootOperationArgv(operation: string)
    requires operation in RootOperations
    ensures FilesystemArgv(operation) == Some(["sudo", "btrfs", "filesystem", operation, "/"])
  {
  }

  /** resize passes the fixed size before "/". */
  lemma ResizeArgv()
    ensures FilesystemArgv("resize") == Some(["sudo", "btrfs", "filesystem", "resize", "10G", "/"])
  {
    assert "resize" !in RootOperations;
  }

  /** mkswapfile passes the swap-file path and no "/" operand. */
  lemma MkswapfileArgv()
    ensures FilesystemArgv("mkswapfile") == Some(["sudo", "btrfs", "filesystem", "mkswapfile", "/mnt/swapfile"])
    ensures "/" !in FilesystemArgv("mkswapfile").value
  {
    assert "mkswapfile" !in RootOperations;
    var argv := FilesystemArgv("mkswapfile").value;
    assert forall i :: 0 <= i < |argv| ==> |argv[i]| != 1 || argv[i] != "/";
  }

  /** A name outside the table runs nothing: the output does not depend on what a run would do. */
  lemma UnknownRunsNothing(operation: string, exec: seq<string> -> Launch, exec': seq<string> -> Launch)
    requires operation !in Buttons
    ensures DiskOperationOutput(operation, exec) == DiskOperationOutput(operation, exec')
    ensures DiskOperationOutput(operation, exec) == "Error executing command: " + UnboundResult
  {
  }

  /** Every argument vector has four or more words, the fourth being the operation's name, and
      ends with "/" except for mkswapfile. */
  lemma ArgvShape(operation: string)
    requires operation in Buttons
    ensures var argv := FilesystemArgv(operation).value;
      argv[3] == operation && (argv[|argv| - 1] == "/" <==> operation != "mkswapfile")
  {
    if operation in RootOperations {
      RootOperationArgv(operation);
    } else if operation == "resize" {
      ResizeArgv();
    } else {
      MkswapfileArgv();
    }
  }
}
