/** The subvolume screen: a combo box of mount points read from `lsblk`, a path field, a name
    field, and create, delete, list and snapshot actions that compose their target paths from
    the chosen mount point and the two fields. */
module Subvolume {
  import opened PyText
  import opened Process
  import opened QtCombo
  import opened Lsblk

  /** The first entry of the combo box, which stands for "no mount point chosen". */
  const Placeholder := MountPlaceholder

  const FillAllFields := "Please fill in all fields and select a device."
  const NeedPath := "Please provide a valid subvolume path and select a device."
  const NeedDevice := "Please select a device."
  const NeedPathAndName := "Please provide a valid subvolume path, name, and select a device."

  datatype SubvolumeOp = Create | Delete | List | Snapshot

  function Verb(op: SubvolumeOp): string {
    match op
    case Create => "create"
    case Delete => "delete"
    case List => "list"
    case Snapshot => "snapshot"
  }

  /** List needs only a mount point; delete also a path; create and snapshot a path and a name. */
  predicate NeedsPath(op: SubvolumeOp) {
    !op.List?
  }

  predicate NeedsName(op: SubvolumeOp) {
    op.Create? || op.Snapshot?
  }

  function Refusal(op: SubvolumeOp): string {
    match op
    case Create => FillAllFields
    case Delete => NeedPath
    case List => NeedDevice
    case Snapshot => NeedPathAndName
  }

  /** What follows the verb: the subvolume `{device}/{path}` (with `/{name}` for create), the
      mount point alone for list, and for snapshot the source and then the destination. */
  function Operands(op: SubvolumeOp, device: string, path: string, name: string): string {
    match op
    case Create => device + "/" + path + "/" + name
    case Delete => device + "/" + path
    case List => device
    case Snapshot => device + "/" + path + " " + device + "/" + path + "/" + name
  }

  /** The command string each action passes to `run_btrfs_command`: the four f-strings
      `subvolume create {device}/{path}/{name}`, `subvolume delete {device}/{path}`,
      `subvolume list {device}` and `subvolume snapshot {device}/{path} {device}/{path}/{name}`
      all read "subvolume", the verb, then the operands. */
  function SubvolumeCommand(op: SubvolumeOp, device: string, path: string, name: string): string {
    "subvolume " + Verb(op) + " " + Operands(op, device, path, name)
  }

  /** What one action does with the chosen mount point and the two fields, stripped. */
  function SubvolumePlan(op: SubvolumeOp, device: string, pathText: string, nameText: string): (p: Plan<seq<string>>)
    ensures p.Run? <==>
      device != Placeholder && (NeedsPath(op) ==> Strip(pathText) != []) && (NeedsName(op) ==> Strip(nameText) != [])
    ensures p.Refuse? ==> p.message == Refusal(op)
    ensures p.Run? ==>
      (p.command == ["sudo", "btrfs", "subvolume", Verb(op)] + Split(Operands(op, device, Strip(pathText), Strip(nameText))))
  {
    var path, name := Strip(pathText), Strip(nameText);
    if device != Placeholder && (NeedsPath(op) ==> path != []) && (NeedsName(op) ==> name != []) then
      SubvolumeArgv(op, device, path, name);
      Run(SudoBtrfs(SubvolumeCommand(op, device, path, name)))
    else
      Refuse(Refusal(op))
  }

  /** Every action's argument vector: `sudo btrfs subvolume`, the verb, then the words of its
      operands. */
  lemma SubvolumeArgv(op: SubvolumeOp, device: string, path: string, name: string)
    ensures SudoBtrfs(SubvolumeCommand(op, device, path, name)) ==
      ["sudo", "btrfs", "subvolume", Verb(op)] + Split(Operands(op, device, path, name))
  {
    assert "subvolume " + Verb(op) == "subvolume" + " " + Verb(op);
    VerbIsWord(op);
    assert IsWord("subvolume");
    GroupVerbArgv("subvolume", Verb(op), Operands(op, device, path, name));
  }

  lemma VerbIsWord(op: SubvolumeOp)
    ensures IsWord(Verb(op))
  {
    match op
    case Create => assert IsWord("create");
    case Delete => assert IsWord("delete");
    case List => assert IsWord("list");
    case Snapshot => assert IsWord("snapshot");
  }

  /** Joining two words with "/" gives one word. */
  lemma SlashJoinIsWord(a: string, b: string)
    requires IsWord(a) && IsWord(b)
    ensures IsWord(a + "/" + b)
  {
    assert IsWord("/");
    WordsGlue(a, "/");
    WordsGlue(a + "/", b);
  }

  /** An action whose guard passes runs `sudo btrfs subvolume`, its verb, and the words of its
      operands. */
  lemma PlanRuns(op: SubvolumeOp, device: string, pathText: string, nameText: string, words: seq<string>)
    requires device != Placeholder
    requires (NeedsPath(op) ==> Strip(pathText) != []) && (NeedsName(op) ==> Strip(nameText) != [])
    requires Split(Operands(op, device, Strip(pathText), Strip(nameText))) == words
    ensures SubvolumePlan(op, device, pathText, nameText) == Run(["sudo", "btrfs", "subvolume", Verb(op)] + words)
  {
  }

  /** The create operand of whitespace-free parts is one word. */
  lemma CreateSplit(device: string, path: string, name: string)
    requires IsWord(device) && IsWord(path) && IsWord(name)
    ensures Split(Operands(Create, device, path, name)) == [device + "/" + path + "/" + name]
  {
    SlashJoinIsWord(device, path);
    SlashJoinIsWord(device + "/" + path, name);
    SplitWord(device + "/" + path + "/" + name);
  }

  /** The delete operand of whitespace-free parts is one word. */
  lemma DeleteSplit(device: string, path: string)
    requires IsWord(device) && IsWord(path)
    ensures Split(Operands(Delete, device, path, "")) == [device + "/" + path]
  {
    SlashJoinIsWord(device, path);
    SplitWord(device + "/" + path);
  }

  /** The snapshot operands of whitespace-free parts are two words, source then destination. */
  lemma SnapshotSplit(device: string, path: string, name: string)
    requires IsWord(device) && IsWord(path) && IsWord(name)
    ensures var source := device + "/" + path;
      Split(Operands(Snapshot, device, path, name)) == [source, source + "/" + name]
  {
    var source := device + "/" + path;
    var destination := source + "/" + name;
    SlashJoinIsWord(device, path);
    SlashJoinIsWord(source, name);
    assert Operands(Snapshot, device, path, name) == source + " " + destination;
    SplitSpaced(source, destination);
    SplitWord(source);
    SplitWord(destination);
  }

  /** Four leading arguments followed by one or two more. */
  lemma AppendOne<T>(a: T, b: T, c: T, d: T, e: T)
    ensures [a, b, c, d] + [e] == [a, b, c, d, e]
  {
  }

  lemma AppendTwo<T>(a: T, b: T, c: T, d: T, e: T, f: T)
    ensures [a, b, c, d] + [e, f] == [a, b, c, d, e, f]
  {
  }

  /** With a whitespace-free mount point, path and name, create passes the new subvolume as
      one argument, `{device}/{path}/{name}`. */
  lemma CreateArgv(device: string, pathText: string, nameText: string)
    requires device != Placeholder && IsWord(device) && IsWord(Strip(pathText)) && IsWord(Strip(nameText))
    ensures SubvolumePlan(Create, device, pathText, nameText) ==
      Run(["sudo", "btrfs", "subvolume", "create", device + "/" + Strip(pathText) + "/" + Strip(nameText)])
  {
    var path, name := Strip(pathText), Strip(nameText);
    var target := device + "/" + path + "/" + name;
    CreateSplit(device, path, name);
    PlanRuns(Create, device, pathText, nameText, [target]);
    AppendOne("sudo", "btrfs", "subvolume", "create", target);
  }

  /** Delete passes `{device}/{path}` as one argument. */
  lemma DeleteArgv(device: string, pathText: string, nameText: string)
    requires device != Placeholder && IsWord(device) && IsWord(Strip(pathText))
    ensures SubvolumePlan(Delete, device, pathText, nameText) ==
      Run(["sudo", "btrfs", "subvolume", "delete", device + "/" + Strip(pathText)])
  {
    var path := Strip(pathText);
    var target := device + "/" + path;
    DeleteSplit(device, path);
    assert Operands(Delete, device, path, Strip(nameText)) == Operands(Delete, device, path, "");
    PlanRuns(Delete, device, pathText, nameText, [target]);
    AppendOne("sudo", "btrfs", "subvolume", "delete", target);
  }

  /** List is guarded by the mount point alone: the fields are not read, and the mount point is
      the only operand. */
  lemma ListArgv(device: string, pathText: string, nameText: string)
    requires device != Placeholder && IsWord(device)
    ensures SubvolumePlan(List, device, pathText, nameText) == Run(["sudo", "btrfs", "subvolume", "list", device])
  {
    SplitWord(device);
    PlanRuns(List, device, pathText, nameText, [device]);
    AppendOne("sudo", "btrfs", "subvolume", "list", device);
  }

  /** The snapshot's destination is its source followed by "/" and the name, where the source
      is `{device}/{path}`. */
  lemma SnapshotArgv(device: string, pathText: string, nameText: string)
    requires device != Placeholder && IsWord(device) && IsWord(Strip(pathText)) && IsWord(Strip(nameText))
    ensures var source := device + "/" + Strip(pathText);
      SubvolumePlan(Snapshot, device, pathText, nameText) ==
        Run(["sudo", "btrfs", "subvolume", "snapshot", source, source + "/" + Strip(nameText)])
  {
    var path, name := Strip(pathText), Strip(nameText);
    var source := device + "/" + path;
    var destination := source + "/" + name;
    SnapshotSplit(device, path, name);
    PlanRuns(Snapshot, device, pathText, nameText, [source, destination]);
    AppendTwo("sudo", "btrfs", "subvolume", "snapshot", source, destination);
  }

  /** The actions see the fields only through their stripped text. */
  lemma PlanSeesStrippedFields(op: SubvolumeOp, device: string, pathText: string, nameText: string)
    ensures SubvolumePlan(op, device, pathText, nameText) == SubvolumePlan(op, device, Strip(pathText), Strip(nameText))
  {
    StripIdempotent(pathText);
    StripIdempotent(nameText);
  }

  /** A path field holding only whitespace refuses every action that needs a path. */
  lemma BlankPathRefused(op: SubvolumeOp, device: string, pathText: string, nameText: string)
    requires NeedsPath(op) && AllSpace(pathText)
    ensures SubvolumePlan(op, device, pathText, nameText) == Refuse(Refusal(op))
  {
    StripEmpty(pathText);
  }

  // ---------------------------------------------------------------------------
  // The screen

  class SubvolumeScreen {
    var devices: Combo
    var output: string

    /** The placeholder stays the first entry of the combo box. */
    predicate Valid()
      reads this
    {
      QtCombo.Valid(devices) && devices.items != [] && devices.items[0] == Placeholder
    }

    /** The placeholder is added, then the mount points follow it; the placeholder is current,
        so no action runs until a mount point is picked. */
    constructor (lsblk: Launch)
      ensures Valid()
      ensures (devices, output) == MountsPopulated(AddItem(Empty(false), Placeholder), "", lsblk)
      ensures CurrentText(devices) == Placeholder
    {
      devices := AddItem(Empty(false), Placeholder);
      output := "";
      new;
      PopulateDevices(lsblk);
    }

    method PopulateDevices(lsblk: Launch)
      requires Valid()
      modifies this
      ensures Valid()
      ensures (devices, output) == MountsPopulated(old(devices), old(output), lsblk)
      ensures 0 <= old(devices).index ==> CurrentText(devices) == CurrentText(old(devices))
    {
      match lsblk
      case Raised(e) =>
        output := "Error fetching devices: " + e;
      case Ran(r) =>
        if r.returncode == 0 {
          var mounts := MountPointsOf(r.stdout);
          if 0 <= devices.index {
            AddKeepsSelection(devices, mounts);
          }
          devices := AddEach(devices, mounts);
        } else {
          output := "Error: " + r.stderr;
        }
    }

    /** The user picks entry `i`. */
    method Select(i: int)
      requires Valid()
      modifies this
      ensures Valid()
      ensures devices == SetCurrentIndex(old(devices), i) && output == old(output)
    {
      devices := SetCurrentIndex(devices, i);
    }

    /** `run_btrfs_command`: `sudo btrfs` and the command's words, and the outcome shown. */
    method RunBtrfsCommand(command: string, exec: seq<string> -> Launch) returns (argv: seq<string>)
      modifies this
      ensures argv == SudoBtrfs(command) && output == Outcome(exec(argv)) && devices == old(devices)
    {
      argv := ["sudo", "btrfs"] + Split(command);
      var result := exec(argv);
      match result
      case Ran(c) =>
        if c.returncode == 0 {
          output := c.stdout;
        } else {
          output := "Error: " + c.stderr;
        }
      case Raised(e) =>
        output := "Error executing command: " + e;
    }

    /** One of the four action buttons, with the two fields as they are typed. */
    method Act(op: SubvolumeOp, pathText: string, nameText: string, exec: seq<string> -> Launch)
      returns (ran: Option<seq<string>>)
      modifies this
      ensures devices == old(devices)
      ensures match SubvolumePlan(op, CurrentText(old(devices)), pathText, nameText)
        case Refuse(m) => ran == None && output == m
        case Run(argv) => ran == Some(argv) && output == Outcome(exec(argv))
    {
      var device := CurrentText(devices);
      var path := Strip(pathText);
      var name := Strip(nameText);
      if device != Placeholder && (NeedsPath(op) ==> path != "") && (NeedsName(op) ==> name != "") {
        var argv := RunBtrfsCommand(SubvolumeCommand(op, device, path, name), exec);
        ran := Some(argv);
      } else {
        output := Refusal(op);
        ran := None;
      }
    }
  }
}
