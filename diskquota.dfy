/** The quota screen: a combo box of mount points read from `lsblk` behind a placeholder, and
    enable, disable and rescan actions on the chosen mount point; the back button puts the
    placeholder back. */
module DiskQuota {
  import opened PyText
  import opened Process
  import opened QtCombo
  import opened Lsblk

  const Placeholder := MountPlaceholder
  const NoDevice := "Please select a device."
  const TerminatedNotice := "Subprocess terminated."

  datatype QuotaOp = Enable | Disable | Rescan

  function Verb(op: QuotaOp): string {
    match op
    case Enable => "enable"
    case Disable => "disable"
    case Rescan => "rescan"
  }

  lemma VerbIsWord(op: QuotaOp)
    ensures IsWord(Verb(op))
  {
    match op
    case Enable => assert IsWord("enable");
    case Disable => assert IsWord("disable");
    case Rescan => assert IsWord("rescan");
  }

  /** The f-strings `quota enable {device}`, `quota disable {device}` and
      `quota rescan {device}`. */
  function QuotaCommand(op: QuotaOp, device: string): string {
    "quota " + Verb(op) + " " + device
  }

  /** One of the three buttons: refused on the placeholder, otherwise `sudo btrfs quota`, the
      verb and the words of the mount point. */
  function QuotaPlan(op: QuotaOp, device: string): (p: Plan<seq<string>>)
    ensures p.Run? <==> device != Placeholder
    ensures p.Refuse? ==> p.message == NoDevice
    ensures p.Run? ==> p.command == ["sudo", "btrfs", "quota", Verb(op)] + Split(device)
  {
    if device != Placeholder then
      QuotaArgv(op, device);
      Run(SudoBtrfs(QuotaCommand(op, device)))
    else
      Refuse(NoDevice)
  }

  lemma QuotaArgv(op: QuotaOp, device: string)
    ensures SudoBtrfs(QuotaCommand(op, device)) == ["sudo", "btrfs", "quota", Verb(op)] + Split(device)
  {
    assert "quota " + Verb(op) == "quota" + " " + Verb(op);
    assert IsWord("quota");
    VerbIsWord(op);
    GroupVerbArgv("quota", Verb(op), device);
  }

  /** A mount point without whitespace is the fifth and last argument. */
  lemma WordDeviceArgv(op: QuotaOp, device: string)
    requires device != Placeholder && IsWord(device)
    ensures QuotaPlan(op, device) == Run(["sudo", "btrfs", "quota", Verb(op), device])
  {
    SplitWord(device);
    assert ["sudo", "btrfs", "quota", Verb(op)] + [device] == ["sudo", "btrfs", "quota", Verb(op), device];
  }

  class QuotaScreen {
    var devices: Combo
    var output: string

    /** The placeholder stays the first entry of the combo box. */
    predicate Valid()
      reads this
    {
      QtCombo.Valid(devices) && devices.items != [] && devices.items[0] == Placeholder
    }

    /** The placeholder is added, then the mount points follow it; the placeholder is current,
        so every action is refused until a mount point is picked. */
    constructor (lsblk: Launch)
      ensures Valid()
      ensures (devices, output) == MountsPopulated(AddItem(Empty(false), Placeholder), "", lsblk)
      ensures CurrentText(devices) == Placeholder
    {
      devices := AddItem(Empty(false), Placeholder);
      output := "";
      new;
      PopulateDevices(lsblk);
    }

    method PopulateDevices(lsblk: Launch)
      requires Valid()
      modifies this
      ensures Valid()
      ensures (devices, output) == MountsPopulated(old(devices), old(output), lsblk)
      ensures 0 <= old(devices).index ==> CurrentText(devices) == CurrentText(old(devices))
    {
      match lsblk
      case Raised(e) =>
        output := "Error fetching devices: " + e;
      case Ran(r) =>
        if r.returncode == 0 {
          var mounts := MountPointsOf(r.stdout);
          if 0 <= devices.index {
            AddKeepsSelection(devices, mounts);
          }
          devices := AddEach(devices, mounts);
        } else {
          output := "Error: " + r.stderr;
        }
    }

    /** The user picks entry `i`. */
    method Select(i: int)
      requires Valid()
      modifies this
      ensures Valid()
      ensures devices == SetCurrentIndex(old(devices), i) && output == old(output)
    {
      devices := SetCurrentIndex(devices, i);
    }

    /** `run_btrfs_command`: `sudo btrfs` and the command's words, and the outcome shown. */
    method RunBtrfsCommand(command: string, exec: seq<string> -> Launch) returns (argv: seq<string>)
      modifies this
      ensures argv == SudoBtrfs(command) && output == Outcome(exec(argv)) && devices == old(devices)
    {
      argv := ["sudo", "btrfs"] + Split(command);
      var result := exec(argv);
      match result
      case Ran(c) =>
        if c.returncode == 0 {
          output := c.stdout;
        } else {
          output := "Error: " + c.stderr;
        }
      case Raised(e) =>
        output := "Error executing command: " + e;
    }

    /** One of the enable, disable and rescan buttons. */
    method Act(op: QuotaOp, exec: seq<string> -> Launch) returns (ran: Option<seq<string>>)
      modifies this
      ensures devices == old(devices)
      ensures match QuotaPlan(op, CurrentText(old(devices)))
        case Refuse(m) => ran == None && output == m
        case Run(argv) => ran == Some(argv) && output == Outcome(exec(argv))
    {
      var device := CurrentText(devices);
      if device != Placeholder {
        var argv := RunBtrfsCommand(QuotaCommand(op, device), exec);
        ran := Some(argv);
      } else {
        output := NoDevice;
        ran := None;
      }
    }

    /** `back_action`: the placeholder is current again, so the next action is refused, and the
        output holds only the termination notice. */
    method Back()
      requires Valid()
      modifies this
      ensures Valid()
      ensures devices.items == old(devices.items) && CurrentText(devices) == Placeholder
      ensures output == TerminatedNotice
    {
      devices := SetCurrentIndex(devices, 0);
      output := "";
      output := TerminatedNotice;
    }
  }

  /** After the back button, whatever was picked before, every quota action is refused. */
  lemma BackRefusesActions(c: Combo, op: QuotaOp)
    requires c.items != [] && c.items[0] == Placeholder
    ensures QuotaPlan(op, CurrentText(SetCurrentIndex(c, 0))) == Refuse(NoDevice)
  {
  }
}
