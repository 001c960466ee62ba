/** The scrub screen: a combo box of mount points read from `lsblk` behind a placeholder, and
    start, cancel, resume and status actions on the chosen mount point. */
module DiskScrub {
  import opened PyText
  import opened Process
  import opened QtCombo
  import opened Lsblk

  const Placeholder := MountPlaceholder
  const NoDevice := "Please select a device."

  datatype ScrubOp = Start | Cancel | Resume | Status

  function Verb(op: ScrubOp): string {
    match op
    case Start => "start"
    case Cancel => "cancel"
    case Resume => "resume"
    case Status => "status"
  }

  lemma VerbIsWord(op: ScrubOp)
    ensures IsWord(Verb(op))
  {
    match op
    case Start => assert IsWord("start");
    case Cancel => assert IsWord("cancel");
    case Resume => assert IsWord("resume");
    case Status => assert IsWord("status");
  }

  /** The f-strings `scrub start {device}`, `scrub cancel {device}`, `scrub resume {device}`
      and `scrub status {device}`. */
  function ScrubCommand(op: ScrubOp, device: string): string {
    "scrub " + Verb(op) + " " + device
  }

  /** One of the four buttons: refused on the placeholder, otherwise `sudo btrfs scrub`, the
      verb and the words of the mount point. */
  function ScrubPlan(op: ScrubOp, device: string): (p: Plan<seq<string>>)
    ensures p.Run? <==> device != Placeholder
    ensures p.Refuse? ==> p.message == NoDevice
    ensures p.Run? ==> p.command == ["sudo", "btrfs", "scrub", Verb(op)] + Split(device)
  {
    if device != Placeholder then
      ScrubArgv(op, device);
      Run(SudoBtrfs(ScrubCommand(op, device)))
    else
      Refuse(NoDevice)
  }

  lemma ScrubArgv(op: ScrubOp, device: string)
    ensures SudoBtrfs(ScrubCommand(op, device)) == ["sudo", "btrfs", "scrub", Verb(op)] + Split(device)
  {
    assert "scrub " + Verb(op) == "scrub" + " " + Verb(op);
    assert IsWord("scrub");
    VerbIsWord(op);
    GroupVerbArgv("scrub", Verb(op), device);
  }

  /** A mount point without whitespace is the fifth and last argument. */
  lemma WordDeviceArgv(op: ScrubOp, device: string)
    requires device != Placeholder && IsWord(device)
    ensures ScrubPlan(op, device) == Run(["sudo", "btrfs", "scrub", Verb(op), device])
  {
    SplitWord(device);
    assert ["sudo", "btrfs", "scrub", Verb(op)] + [device] == ["sudo", "btrfs", "scrub", Verb(op), device];
  }

  class ScrubScreen {
    var devices: Combo
    var output: string

    /** The placeholder stays the first entry of the combo box. */
    predicate Valid()
      reads this
    {
      QtCombo.Valid(devices) && devices.items != [] && devices.items[0] == Placeholder
    }

    /** The placeholder is added, then the mount points follow it; the placeholder is current,
        so every action is refused until a mount point is picked. */
    constructor (lsblk: Launch)
      ensures Valid()
      ensures (devices, output) == MountsPopulated(AddItem(Empty(false), Placeholder), "", lsblk)
      ensures CurrentText(devices) == Placeholder
    {
      devices := AddItem(Empty(false), Placeholder);
      output := "";
      new;
      PopulateDevices(lsblk);
    }

    method PopulateDevices(lsblk: Launch)
      requires Valid()
      modifies this
      ensures Valid()
      ensures (devices, output) == MountsPopulated(old(devices), old(output), lsblk)
      ensures 0 <= old(devices).index ==> CurrentText(devices) == CurrentText(old(devices))
    {
      match lsblk
      case Raised(e) =>
        output := "Error fetching devices: " + e;
      case Ran(r) =>
        if r.returncode == 0 {
          var mounts := MountPointsOf(r.stdout);
          if 0 <= devices.index {
            AddKeepsSelection(devices, mounts);
          }
          devices := AddEach(devices, mounts);
        } else {
          output := "Error: " + r.stderr;
        }
    }

    /** The user picks entry `i`. */
    method Select(i: int)
      requires Valid()
      modifies this
      ensures Valid()
      ensures devices == SetCurrentIndex(old(devices), i) && output == old(output)
    {
      devices := SetCurrentIndex(devices, i);
    }

    /** `run_btrfs_command`: `sudo btrfs` and the command's words, and the outcome shown. */
    method RunBtrfsCommand(command: string, exec: seq<string> -> Launch) returns (argv: seq<string>)
      modifies this
      ensures argv == SudoBtrfs(command) && output == Outcome(exec(argv)) && devices == old(devices)
    {
      argv := ["sudo", "btrfs"] + Split(command);
      var result := exec(argv);
      match result
      case Ran(c) =>
        if c.returncode == 0 {
          output := c.stdout;
        } else {
          output := "Error: " + c.stderr;
        }
      case Raised(e) =>
        output := "Error executing command: " + e;
    }

    /** One of the start, cancel, resume and status buttons. */
    method Act(op: ScrubOp, exec: seq<string> -> Launch) returns (ran: Option<seq<string>>)
      modifies this
      ensures devices == old(devices)
      ensures match ScrubPlan(op, CurrentText(old(devices)))
        case Refuse(m) => ran == None && output == m
        case Run(argv) => ran == Some(argv) && output == Outcome(exec(argv))
    {
      var device := CurrentText(devices);
      if device != Placeholder {
        var argv := RunBtrfsCommand(ScrubCommand(op, device), exec);
        ran := Some(argv);
      } else {
        output := NoDevice;
        ran := None;
      }
    }
  }
}
