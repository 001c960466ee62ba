/** The device-management screen: a device list made of the `sd*` lines of `lsblk -o NAME,SIZE`,
    a manual entry that stands in when no device is picked, and six `btrfs device` actions run
    as `sudo btrfs` plus the words of a command string. */
module DeviceManager {
  import opened PyText
  import opened Process
  import opened QtCombo
  import opened Lsblk

  const NoDevice := "Please select or enter a device."

  // ---------------------------------------------------------------------------
  // get_devices_from_lsblk

  /** A line beginning with two non-blank characters has a first token of at least two
      characters, which is where the line begins. */
  lemma FirstTokenOfLine(line: string)
    requires |line| >= 2 && !IsSpace(line[0]) && !IsSpace(line[1])
    ensures Split(line) != [] && Split(line)[0] == line[..WordLength(line)]
    ensures WordLength(line) >= 2
  {
    assert WordLength(line) == 1 + WordLength(line[1..]);
    assert line[1..][0] == line[1];
  }

  /** The first token of every line that starts with "sd", in line order. */
  function SdNames(lines: seq<string>): (r: seq<string>)
    ensures |r| <= |lines|
    ensures forall i :: 0 <= i < |r| ==> IsWord(r[i]) && StartsWith(r[i], "sd")
  {
    if lines == [] then []
    else if StartsWith(lines[0], "sd") then
      FirstTokenOfLine(lines[0]);
      assert Split(lines[0])[0][..2] == lines[0][..2];
      [Split(lines[0])[0]] + SdNames(lines[1..])
    else SdNames(lines[1..])
  }

  /** What `get_devices_from_lsblk` returns when `lsblk` ran; its exit code is not looked at. */
  function DiskNames(stdout: string): seq<string> {
    SdNames(SplitLines(stdout))
  }

  /** The names of the entries that start with "sd", in order. */
  function SdEntryNames(es: seq<Entry>): seq<string> {
    if es == [] then []
    else (if StartsWith(es[0].name, "sd") then [es[0].name] else []) + SdEntryNames(es[1..])
  }

  /** A row starts with "sd" exactly when its NAME cell does. */
  lemma RenderStartsWith(e: Entry)
    requires WellFormed(e)
    ensures StartsWith(Render(e), "sd") <==> StartsWith(e.name, "sd")
  {
    var r := Render(e);
    if e.second.Some? {
      var n := e.name;
      assert r == n + " " + e.second.value;
      if |n| >= 2 {
        assert r[..2] == n[..2];
      } else {
        assert r[..2][1] == ' ';
      }
    }
  }

  lemma {:induction false} SdNamesOfRendered(es: seq<Entry>)
    requires AllWellFormed(es)
    ensures SdNames(RenderAll(es)) == SdEntryNames(es)
    decreases |es|
  {
    if es != [] {
      var rows := RenderAll(es);
      RenderStartsWith(es[0]);
      RenderTokens(es[0]);
      assert rows[0] == Render(es[0]);
      assert rows[1..] == RenderAll(es[1..]);
      SdNamesOfRendered(es[1..]);
      if StartsWith(es[0].name, "sd") {
        assert SdNames(rows) == [Split(rows[0])[0]] + SdNames(rows[1..]);
      } else {
        assert SdNames(rows) == SdNames(rows[1..]);
      }
    }
  }

  /** On a well-formed NAME,SIZE listing whose header does not start with "sd", the list is
      exactly the names that start with "sd", in order: the header and the partitions drawn
      with tree characters are left out. */
  lemma DiskNamesOfListing(header: string, es: seq<Entry>)
    requires NoLineBreak(header) && !StartsWith(header, "sd") && AllWellFormed(es)
    ensures DiskNames(Listing(header, es)) == SdEntryNames(es)
  {
    LinesOfListing(header, es);
    var lines := [header] + RenderAll(es);
    assert lines[1..] == RenderAll(es);
    SdNamesOfRendered(es);
  }

  /** The names `update_device_list` receives for one `lsblk` call: none when it raised. */
  function FetchedNames(lsblk: Launch): seq<string> {
    match lsblk
    case Ran(c) => DiskNames(c.stdout)
    case Raised(_) => []
  }

  /** The output text after the fetch: the handler's message when `lsblk` raised. */
  function FetchOutput(output: string, lsblk: Launch): string {
    match lsblk
    case Ran(_) => output
    case Raised(e) => "Error fetching devices: " + e
  }

  /** `get_devices_from_lsblk` run on an output area that may not exist yet: the names it
      returns, or the exception its handler's write raised. */
  function FetchRun(output: Option<string>, lsblk: Launch): Attempt<(seq<string>, Option<string>)> {
    match lsblk
    case Ran(c) => Done((DiskNames(c.stdout), output))
    case Raised(e) => SetText([], output, "BtrfsGUI", "output_display", "Error fetching devices: " + e)
  }

  /** With its output area in place the fetch never raises, and it returns and leaves what
      `GetDevicesFromLsblk` promises. */
  lemma FetchRunPresent(output: string, lsblk: Launch)
    ensures FetchRun(Some(output), lsblk) == Done((FetchedNames(lsblk), Some(FetchOutput(output, lsblk))))
  {
  }

  /** The constructor as written: the combo box and its placeholder text, then
      `update_device_list` (the fetch, then `clear` and `addItems`, which cannot raise), and
      only afterwards the output area. */
  function StartupAsWritten(lsblk: Launch): Startup {
    StartupOf(FetchRun(None, lsblk))
  }

  /** As written, any failure to run `lsblk` keeps the screen from opening: the handler's
      write to the missing output area raises AttributeError out of the constructor. A run
      that completes, whatever its exit code, lets it open. */
  lemma StartupCrashesOnFetchError(lsblk: Launch)
    ensures StartupAsWritten(lsblk).Crashed? <==> lsblk.Raised?
    ensures StartupAsWritten(lsblk).Crashed? ==> StartupAsWritten(lsblk).error == NoAttribute("BtrfsGUI", "output_display")
  {
  }

  // ---------------------------------------------------------------------------
  // The actions

  datatype DeviceOp = Add | Remove | Replace | Scan | Stats | Usage

  function Verb(op: DeviceOp): string {
    match op
    case Add => "add"
    case Remove => "remove"
    case Replace => "replace"
    case Scan => "scan"
    case Stats => "stats"
    case Usage => "usage"
  }

  /** The operations that name "/mnt" after the device. */
  predicate TargetsMount(op: DeviceOp) {
    op.Add? || op.Remove? || op.Replace?
  }

  /** The command string each action passes to `run_btrfs_command`. */
  function DeviceCommand(op: DeviceOp, device: string): string {
    match op
    case Add => "device add " + device + " /mnt"
    case Remove => "device remove " + device + " /mnt"
    case Replace => "device replace " + device + " /mnt"
    case Scan => "device scan"
    case Stats => "device stats " + device
    case Usage => "device usage " + device
  }

  /** What one action does with the selected device: scan always runs; every other action is
      refused when the device is empty. */
  function DevicePlan(op: DeviceOp, device: string): (p: Plan<seq<string>>)
    ensures p.Refuse? <==> !op.Scan? && device == ""
    ensures p.Refuse? ==> p.message == NoDevice
    ensures p.Run? ==> |p.command| >= 4 && p.command[..2] == ["sudo", "btrfs"]
  {
    if !op.Scan? && device == "" then Refuse(NoDevice)
    else
      DeviceArgv(op, device);
      Run(SudoBtrfs(DeviceCommand(op, device)))
  }

  /** The command string regrouped as words joined by single spaces. */
  lemma DeviceCommandShape(op: DeviceOp, device: string)
    requires !op.Scan?
    ensures TargetsMount(op) ==>
      DeviceCommand(op, device) == "device" + " " + Verb(op) + " " + (device + " " + "/mnt")
    ensures !TargetsMount(op) ==> DeviceCommand(op, device) == "device" + " " + Verb(op) + " " + device
  {
    assert " /mnt" == " " + "/mnt";
    match op
    case Add => assert "device add " == "device" + " " + "add" + " ";
    case Remove => assert "device remove " == "device" + " " + "remove" + " ";
    case Replace => assert "device replace " == "device" + " " + "replace" + " ";
    case Stats => assert "device stats " == "device" + " " + "stats" + " ";
    case Usage => assert "device usage " == "device" + " " + "usage" + " ";
  }

  lemma VerbIsWord(op: DeviceOp)
    ensures IsWord(Verb(op))
  {
    match op
    case Add => assert IsWord("add");
    case Remove => assert IsWord("remove");
    case Replace => assert IsWord("replace");
    case Scan => assert IsWord("scan");
    case Stats => assert IsWord("stats");
    case Usage => assert IsWord("usage");
  }

  /** The argument vector of every action: `sudo btrfs device`, the verb, the words of the
      device, and "/mnt" for add, remove and replace; scan has no device at all. */
  lemma DeviceArgv(op: DeviceOp, device: string)
    ensures op.Scan? ==> SudoBtrfs(DeviceCommand(op, device)) == ["sudo", "btrfs", "device", "scan"]
    ensures !op.Scan? ==> (SudoBtrfs(DeviceCommand(op, device)) ==
      ["sudo", "btrfs", "device", Verb(op)] + Split(device) + (if TargetsMount(op) then ["/mnt"] else []))
  {
    if op.Scan? {
      ScanWords();
    } else if TargetsMount(op) {
      MountCommandWords(op, device);
    } else {
      DeviceCommandWords(op, device);
    }
  }

  lemma ScanWords()
    ensures Split("device scan") == ["device", "scan"]
  {
    assert "device scan" == "device" + " " + "scan";
    assert IsWord("device") && IsWord("scan");
    SplitSpaced("device", "scan");
    SplitWord("device");
    SplitWord("scan");
  }

  lemma MountCommandWords(op: DeviceOp, device: string)
    requires TargetsMount(op)
    ensures Split(DeviceCommand(op, device)) == ["device", Verb(op)] + Split(device) + ["/mnt"]
  {
    assert IsWord("device") && IsWord("/mnt");
    VerbIsWord(op);
    DeviceCommandShape(op, device);
    SplitTwoWordsThen("device", Verb(op), device + " " + "/mnt");
    SplitSpaced(device, "/mnt");
    SplitWord("/mnt");
  }

  lemma DeviceCommandWords(op: DeviceOp, device: string)
    requires !op.Scan? && !TargetsMount(op)
    ensures Split(DeviceCommand(op, device)) == ["device", Verb(op)] + Split(device)
  {
    assert IsWord("device");
    VerbIsWord(op);
    DeviceCommandShape(op, device);
    SplitTwoWordsThen("device", Verb(op), device);
  }

  /** For a device name without whitespace the device is exactly the fifth word. */
  lemma WordDeviceArgv(op: DeviceOp, device: string)
    requires !op.Scan? && IsWord(device)
    ensures DevicePlan(op, device) ==
      Run(["sudo", "btrfs", "device", Verb(op), device] + (if TargetsMount(op) then ["/mnt"] else []))
  {
    DeviceArgv(op, device);
    SplitWord(device);
    var head := ["sudo", "btrfs", "device", Verb(op)];
    var tail: seq<string> := if TargetsMount(op) then ["/mnt"] else [];
    assert head + [device] + tail == ["sudo", "btrfs", "device", Verb(op), device] + tail;
  }

  /** An entry made only of whitespace passes the emptiness check yet contributes no word, so
      add, remove and replace pass "/mnt" where the device belongs. */
  lemma BlankEntryTargetsMount(op: DeviceOp, device: string)
    requires TargetsMount(op) && device != "" && AllSpace(device)
    ensures DevicePlan(op, device) == Run(["sudo", "btrfs", "device", Verb(op), "/mnt"])
  {
    DeviceArgv(op, device);
    SplitAllSpace(device);
    assert ["sudo", "btrfs", "device", Verb(op)] + [] + ["/mnt"] == ["sudo", "btrfs", "device", Verb(op), "/mnt"];
  }

  /** `get_selected_device`: the combo box's text, or the manual entry when that text is empty. */
  function SelectedDevice(comboText: string, manual: string): string {
    if comboText != "" then comboText else manual
  }

  /** The combo box has placeholder text, so after a refill no row is current and the manual
      entry is what the actions use; once row `i` is picked, that device is used instead. */
  lemma ManualUntilPicked(c: Combo, names: seq<string>, manual: string, i: int)
    requires c.placeholderText
    ensures var refilled := AddItems(Clear(c), names);
      SelectedDevice(CurrentText(refilled), manual) == manual &&
      (0 <= i < |names| && names[i] != "" ==>
        SelectedDevice(CurrentText(SetCurrentIndex(refilled, i)), manual) == names[i])
  {
  }

  // ---------------------------------------------------------------------------
  // The screen

  class DeviceScreen {
    var devices: Combo
    /** The text of the manual-entry field. */
    var manual: string
    var output: string

    /** The combo box gets its placeholder text, then `update_device_list` runs; a failed
        `lsblk` leaves an empty list and its message in the output. */
    constructor (lsblk: Launch)
      ensures devices.items == FetchedNames(lsblk) && CurrentText(devices) == ""
      ensures devices.placeholderText && manual == "" && output == FetchOutput("", lsblk)
    {
      devices := Empty(true);
      manual := "";
      output := "";
      new;
      UpdateDeviceList(lsblk);
    }

    method GetDevicesFromLsblk(lsblk: Launch) returns (names: seq<string>)
      modifies this
      ensures names == FetchedNames(lsblk)
      ensures output == FetchOutput(old(output), lsblk)
      ensures devices == old(devices) && manual == old(manual)
    {
      match lsblk
      case Ran(c) =>
        names := DiskNames(c.stdout);
      case Raised(e) =>
        output := "Error fetching devices: " + e;
        names := [];
    }

    /** The list is cleared and refilled: no earlier entry survives. */
    method UpdateDeviceList(lsblk: Launch)
      modifies this
      ensures devices == AddItems(Clear(old(devices)), FetchedNames(lsblk))
      ensures devices.items == FetchedNames(lsblk)
      ensures devices.placeholderText ==> CurrentText(devices) == ""
      ensures output == FetchOutput(old(output), lsblk) && manual == old(manual)
    {
      var names := GetDevicesFromLsblk(lsblk);
      devices := Clear(devices);
      devices := AddItems(devices, names);
    }

    method EnterDevice(text: string)
      modifies this
      ensures manual == text && devices == old(devices) && output == old(output)
    {
      manual := text;
    }

    /** The user picks entry `i`. */
    method Select(i: int)
      modifies this
      ensures devices == SetCurrentIndex(old(devices), i)
      ensures manual == old(manual) && output == old(output)
    {
      devices := SetCurrentIndex(devices, i);
    }

    method GetSelectedDevice() returns (device: string)
      ensures device == SelectedDevice(CurrentText(devices), manual)
    {
      device := CurrentText(devices);
      if device == "" {
        device := manual;
      }
    }

    /** `run_btrfs_command`: `sudo btrfs` and the command's words, and the outcome shown. */
    method RunBtrfsCommand(command: string, exec: seq<string> -> Launch) returns (argv: seq<string>)
      modifies this
      ensures argv == SudoBtrfs(command) && output == Outcome(exec(argv))
      ensures devices == old(devices) && manual == old(manual)
    {
      argv := ["sudo", "btrfs"] + Split(command);
      var result := exec(argv);
      match result
      case Ran(c) =>
        if c.returncode == 0 {
          output := c.stdout;
        } else {
          output := "Error: " + c.stderr;
        }
      case Raised(e) =>
        output := "Error executing command: " + e;
    }

    /** One of the six action buttons. */
    method Act(op: DeviceOp, exec: seq<string> -> Launch) returns (ran: Option<seq<string>>)
      modifies this
      ensures devices == old(devices) && manual == old(manual)
      ensures match DevicePlan(op, SelectedDevice(CurrentText(old(devices)), old(manual)))
        case Refuse(m) => ran == None && output == m
        case Run(argv) => ran == Some(argv) && output == Outcome(exec(argv))
    {
      if op.Scan? {
        var argv := RunBtrfsCommand("device scan", exec);
        return Some(argv);
      }
      var device := GetSelectedDevice();
      if device == "" {
        output := NoDevice;
        return None;
      }
      var argv := RunBtrfsCommand(DeviceCommand(op, device), exec);
      ran := Some(argv);
    }
  }
}
