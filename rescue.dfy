/** The rescue screen: a combo box of `/dev/` paths read from `lsblk -d -o NAME`, and eight
    buttons that each name a `btrfs rescue` operation; six of them pass the chosen device. */
module Rescue {
  import opened PyText
  import opened Process
  import opened QtCombo
  import opened Lsblk

  const NoDevice := "Please select a device."
  const InvalidOperation := "Invalid Operation"

  /** The operations that pass the device after their name. */
  const DeviceOperations: seq<string> :=
    ["chunk-recover", "super-recover", "zero-log", "fix-device-size", "clear-ino-cache", "clear-space-cache"]

  /** The operations that pass no device. */
  const DevicelessOperations: seq<string> := ["create-control-device", "clear-uuid-tree"]

  /** The operation names the buttons send, in the order the buttons are laid out. */
  const Buttons: seq<string> :=
    ["chunk-recover", "super-recover", "zero-log", "fix-device-size",
     "create-control-device", "clear-ino-cache", "clear-space-cache", "clear-uuid-tree"]

  // ---------------------------------------------------------------------------
  // The device list

  /** `[f"/dev/{line.strip()}" for line in lines]`. */
  function DevPaths(lines: seq<string>): seq<string> {
    seq(|lines|, i requires 0 <= i < |lines| => "/dev/" + Strip(lines[i]))
  }

  /** `get_devices` on the text `lsblk` printed: one path per line after the header, whatever
      the exit code. */
  function RescueDevices(stdout: string): (r: seq<string>)
    ensures |r| == if SplitLines(stdout) == [] then 0 else |SplitLines(stdout)| - 1
    ensures forall i :: 0 <= i < |r| ==> r[i] == "/dev/" + Strip(SplitLines(stdout)[i + 1])
  {
    DevPaths(DropHeader(SplitLines(stdout)))
  }

  /** The list the combo box receives: nothing when `lsblk` cannot be run. */
  function FetchedDevices(lsblk: Launch): seq<string> {
    match lsblk
    case Ran(c) => RescueDevices(c.stdout)
    case Raised(_) => []
  }

  /** The output after fetching, as the handler means it. */
  function FetchOutput(output: string, lsblk: Launch): string {
    match lsblk
    case Ran(_) => output
    case Raised(e) => "Error retrieving devices: " + e
  }

  /** The exit code of `lsblk` is never looked at: a failed run lists whatever it printed. */
  lemma ReturnCodeIgnored(rc: int, rc': int, stdout: string, stderr: string, stderr': string)
    ensures FetchedDevices(Ran(Completed(rc, stdout, stderr))) == FetchedDevices(Ran(Completed(rc', stdout, stderr')))
  {
  }

  /** On a well-formed one-column listing, the header is dropped and every name becomes its
      `/dev/` path, in order. */
  lemma RescueDevicesOfListing(header: string, names: seq<string>)
    requires NoLineBreak(header)
    requires forall i :: 0 <= i < |names| ==> IsWord(names[i])
    ensures var r := RescueDevices(Terminated([header] + names));
      |r| == |names| && forall i :: 0 <= i < |names| ==> r[i] == "/dev/" + names[i]
  {
    var lines := [header] + names;
    forall i | 0 <= i < |lines| ensures NoLineBreak(lines[i]) {
      if i > 0 {
        WordHasNoLineBreak(names[i - 1]);
      }
    }
    SplitLinesTerminated(lines);
    forall i | 0 <= i < |names| ensures Strip(lines[i + 1]) == names[i] {
      StripWord(names[i]);
    }
  }

  /** `get_devices` run on an output area that may not exist yet: the paths it returns, or
      the exception its handler's write raised. */
  function GetDevicesRun(output: Option<string>, lsblk: Launch): Attempt<(seq<string>, Option<string>)> {
    match lsblk
    case Ran(c) => Done((RescueDevices(c.stdout), output))
    case Raised(e) => SetText([], output, "BtrfsRescueGUI", "output_display", "Error retrieving devices: " + e)
  }

  /** With its output area in place the fetch never raises, and it returns and leaves what
      `GetDevices` promises. */
  lemma GetDevicesRunPresent(output: string, lsblk: Launch)
    ensures GetDevicesRun(Some(output), lsblk) == Done((FetchedDevices(lsblk), Some(FetchOutput(output, lsblk))))
  {
  }

  /** The constructor as written: the combo box, then `addItems(get_devices())`, and only
      afterwards the output area. */
  function StartupAsWritten(lsblk: Launch): Startup {
    StartupOf(GetDevicesRun(None, lsblk))
  }

  /** As written, the screen fails to open exactly when `lsblk` cannot be run: the handler's
      write to the missing output area raises AttributeError out of the constructor. */
  lemma StartupCrashes(lsblk: Launch)
    ensures StartupAsWritten(lsblk).Crashed? <==> lsblk.Raised?
    ensures StartupAsWritten(lsblk).Crashed? ==> StartupAsWritten(lsblk).error == NoAttribute("BtrfsRescueGUI", "output_display")
  {
  }

  // ---------------------------------------------------------------------------
  // The dispatch table

  predicate TakesDevice(operation: string) {
    operation in DeviceOperations
  }

  predicate OmitsDevice(operation: string) {
    operation in DevicelessOperations
  }

  /** `run_rescue_operation`: the device check comes first, for every operation; then the
      table picks the argument vector, and a name outside it is refused. */
  function RescuePlan(operation: string, device: string): (p: Plan<seq<string>>)
    ensures device == "" ==> p == Refuse(NoDevice)
    ensures device != "" && !TakesDevice(operation) && !OmitsDevice(operation) ==> p == Refuse(InvalidOperation)
    ensures p.Run? <==> device != "" && (TakesDevice(operation) || OmitsDevice(operation))
    ensures p.Run? ==> |p.command| >= 4 && p.command[..4] == ["sudo", "btrfs", "rescue", operation]
  {
    if device == "" then Refuse(NoDevice)
    else if TakesDevice(operation) then Run(["sudo", "btrfs", "rescue", operation, device])
    else if OmitsDevice(operation) then Run(["sudo", "btrfs", "rescue", operation])
    else Refuse(InvalidOperation)
  }

  /** No operation is in both tables. */
  lemma TablesDisjoint(operation: string)
    ensures !(TakesDevice(operation) && OmitsDevice(operation))
  {
    if operation == "create-control-device" {
      assert |operation| == 21;
    } else if operation == "clear-uuid-tree" {
      assert operation[6] == 'u';
    }
  }

  /** The device, when passed, is one argument however it is spelled, and it is the last. */
  lemma DeviceIsLastArgument(operation: string, device: string)
    requires device != "" && TakesDevice(operation)
    ensures RescuePlan(operation, device).command == ["sudo", "btrfs", "rescue", operation, device]
  {
  }

  /** The device-less operations pass exactly four arguments, with no device among them. */
  lemma NoDeviceArgument(operation: string, device: string)
    requires device != "" && OmitsDevice(operation)
    ensures RescuePlan(operation, device).command == ["sudo", "btrfs", "rescue", operation]
  {
    TablesDisjoint(operation);
  }

  /** Every button sends an operation the table knows, so "Invalid Operation" needs a name that
      no button sends; exactly six buttons pass the device. */
  lemma ButtonsAreKnown()
    ensures forall i :: 0 <= i < |Buttons| ==> TakesDevice(Buttons[i]) || OmitsDevice(Buttons[i])
    ensures forall i :: 0 <= i < |DeviceOperations| ==> DeviceOperations[i] in Buttons
    ensures forall i :: 0 <= i < |DevicelessOperations| ==> DevicelessOperations[i] in Buttons
  {
    assert Buttons == DeviceOperations[..4] + [DevicelessOperations[0]] + DeviceOperations[4..] + [DevicelessOperations[1]];
  }

  // ---------------------------------------------------------------------------
  // The screen

  class RescueScreen {
    var devices: Combo
    var output: string

    /** The combo box gets the fetched paths; with no placeholder, the first becomes current. */
    constructor (lsblk: Launch)
      ensures devices == AddItems(Empty(false), FetchedDevices(lsblk))
      ensures output == FetchOutput("", lsblk)
      ensures FetchedDevices(lsblk) != [] ==> CurrentText(devices) == FetchedDevices(lsblk)[0]
      ensures FetchedDevices(lsblk) == [] ==> CurrentText(devices) == ""
    {
      devices := Empty(false);
      output := "";
      new;
      var names := GetDevices(lsblk);
      if names != [] {
        FirstAddedIsCurrent(devices, names);
      }
      devices := AddItems(devices, names);
    }

    method GetDevices(lsblk: Launch) returns (names: seq<string>)
      modifies this
      ensures names == FetchedDevices(lsblk)
      ensures output == FetchOutput(old(output), lsblk) && devices == old(devices)
    {
      match lsblk
      case Ran(c) =>
        names := RescueDevices(c.stdout);
      case Raised(e) =>
        output := "Error retrieving devices: " + e;
        names := [];
    }

    /** The user picks entry `i`. */
    method Select(i: int)
      modifies this
      ensures devices == SetCurrentIndex(old(devices), i) && output == old(output)
    {
      devices := SetCurrentIndex(devices, i);
    }

    method RunRescueOperation(operation: string, exec: seq<string> -> Launch) returns (ran: Option<seq<string>>)
      modifies this
      ensures devices == old(devices)
      ensures match RescuePlan(operation, CurrentText(old(devices)))
        case Refuse(m) => ran == None && output == m
        case Run(argv) => ran == Some(argv) && output == Outcome(exec(argv))
    {
      var device := CurrentText(devices);
      if device == "" {
        output := NoDevice;
        return None;
      }
      var argv;
      if TakesDevice(operation) {
        argv := ["sudo", "btrfs", "rescue", operation, device];
      } else if OmitsDevice(operation) {
        argv := ["sudo", "btrfs", "rescue", operation];
      } else {
        output := InvalidOperation;
        return None;
      }
      ran := Some(argv);
      var result := exec(argv);
      match result
      case Ran(c) =>
        if c.returncode == 0 {
          output := c.stdout;
        } else {
          output := "Error: " + c.stderr;
        }
      case Raised(e) =>
        output := "Error executing command: " + e;
    }
  }

  /** When no device was listed, every button is refused with the device message. */
  lemma EmptyListRefusesAll(operation: string)
    ensures RescuePlan(operation, CurrentText(AddItems(Empty(false), []))) == Refuse(NoDevice)
  {
  }
}
