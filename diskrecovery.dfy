/** The restore screen: a device list read from `lsblk -o NAME,SIZE`, a status label that
    also holds the chosen restore path, `btrfs restore` with six optional flags, and subvolume
    creation and listing. Its commands are shell strings; the shell is a parameter. */
module DiskRecovery {
  import opened PyText
  import opened Process
  import opened QtCombo
  import opened Lsblk

  const Placeholder := "Select a disk..."
  const PathPrefix := "Restore path: "
  const InvalidDevice := "Please select a valid device."
  const MissingPath := "Please select a restore path."
  /** `str(e)` of the IndexError that `device.split()[0]` raises on a blank row. */
  const NoFirstToken := "list index out of range"

  // ---------------------------------------------------------------------------
  // populate_device_list

  /** How many rows, from the first, have a first token: the loop stops at the first that has none. */
  function FirstBlank(rows: seq<string>): (k: nat)
    ensures k <= |rows|
    ensures forall i :: 0 <= i < k ==> Split(rows[i]) != []
    ensures k < |rows| ==> Split(rows[k]) == []
  {
    if rows == [] || Split(rows[0]) == [] then 0 else 1 + FirstBlank(rows[1..])
  }

  /** The entries the loop adds: "/dev/" and the row's first token, for each row before the
      first blank one. */
  function DevicePaths(rows: seq<string>): (r: seq<string>)
    ensures |r| == FirstBlank(rows)
    ensures forall i :: 0 <= i < |r| ==> Split(rows[i]) != [] && r[i] == "/dev/" + Split(rows[i])[0]
  {
    if rows == [] || Split(rows[0]) == [] then []
    else ["/dev/" + Split(rows[0])[0]] + DevicePaths(rows[1..])
  }

  /** The device list and status after `populate_device_list` ran with the given `lsblk` run. */
  function Populated(devices: Combo, status: string, lsblk: Launch): (Combo, string) {
    match lsblk
    case Raised(e) => (devices, "Error fetching devices: " + e)
    case Ran(r) =>
      if r.returncode != 0 then (devices, status)
      else
        var rows := Rows(r.stdout);
        var failed := FirstBlank(rows) < |rows|;
        (AddItems(devices, DevicePaths(rows)),
         if failed then "Error fetching devices: " + NoFirstToken else status)
  }

  /** `populate_device_list` run on a status label that may not exist yet. On exit code 0 the
      loop adds the rows before the first blank one, and `split()[0]` on the blank one raises
      IndexError; that and a failure to run `lsblk` reach the `except` handler, which writes
      to the label. */
  function PopulateRun(devices: Combo, status: Option<string>, lsblk: Launch): Attempt<(Combo, Option<string>)> {
    match lsblk
    case Raised(e) => SetText(devices, status, "BtrfsRestoreUI", "output_label", "Error fetching devices: " + e)
    case Ran(r) =>
      if r.returncode != 0 then Done((devices, status))
      else
        var rows := Rows(r.stdout);
        var added := AddItems(devices, DevicePaths(rows));
        if FirstBlank(rows) < |rows| then SetText(added, status, "BtrfsRestoreUI", "output_label", "Error fetching devices: " + NoFirstToken)
        else Done((added, status))
  }

  /** With its status label in place the handler never raises, and it leaves what
      `PopulateDeviceList` promises. */
  lemma PopulateRunPresent(devices: Combo, status: string, lsblk: Launch)
    ensures var (c, t) := Populated(devices, status, lsblk);
      PopulateRun(devices, Some(status), lsblk) == Done((c, Some(t)))
  {
  }

  /** The constructor as written: the combo box and its placeholder, then
      `populate_device_list`, and only afterwards the status label. */
  function StartupAsWritten(lsblk: Launch): Startup {
    StartupOf(PopulateRun(AddItem(Empty(false), Placeholder), None, lsblk))
  }

  /** As written, the screen fails to open exactly when `lsblk` cannot be run, or exits with
      code 0 and a blank row below the header: the handler's write to the missing status label
      raises AttributeError out of the constructor. */
  lemma StartupCrashes(lsblk: Launch)
    ensures StartupAsWritten(lsblk).Crashed? <==>
      (lsblk.Raised? ||
       (lsblk.result.returncode == 0 && FirstBlank(Rows(lsblk.result.stdout)) < |Rows(lsblk.result.stdout)|))
    ensures StartupAsWritten(lsblk).Crashed? ==> StartupAsWritten(lsblk).error == NoAttribute("BtrfsRestoreUI", "output_label")
  {
  }

  /** A blank row below the header keeps the screen from opening, wherever it stands. */
  lemma BlankRowCrashesStartup(stdout: string, before: seq<string>, blank: string, after: seq<string>)
    requires Rows(stdout) == before + [blank] + after
    requires forall i :: 0 <= i < |before| ==> Split(before[i]) != []
    requires Split(blank) == []
    ensures StartupAsWritten(Ran(Completed(0, stdout, ""))) == Crashed(NoAttribute("BtrfsRestoreUI", "output_label"))
  {
    BlankRowStops(before, blank, after);
    StartupCrashes(Ran(Completed(0, stdout, "")));
  }

  /** On a well-formed NAME,SIZE listing every row yields "/dev/" + its name, in order, and
      nothing fails. */
  lemma {:induction false} DevicePathsOfListing(header: string, es: seq<Entry>)
    requires NoLineBreak(header) && AllWellFormed(es)
    ensures var rows := Rows(Listing(header, es));
      FirstBlank(rows) == |rows| == |es| &&
      forall i :: 0 <= i < |es| ==> DevicePaths(rows)[i] == "/dev/" + es[i].name
  {
    RowsOfListing(header, es);
    var rows := Rows(Listing(header, es));
    forall i | 0 <= i < |es| ensures Split(rows[i]) != [] && Split(rows[i])[0] == es[i].name {
      RenderTokens(es[i]);
    }
    FirstBlankFull(rows);
  }

  lemma {:induction false} FirstBlankFull(rows: seq<string>)
    requires forall i :: 0 <= i < |rows| ==> Split(rows[i]) != []
    ensures FirstBlank(rows) == |rows|
    decreases |rows|
  {
    if rows != [] {
      assert forall i :: 0 <= i < |rows[1..]| ==> rows[1..][i] == rows[i + 1];
      FirstBlankFull(rows[1..]);
    }
  }

  /** A blank row stops the listing there: the rows after it are never read. */
  lemma BlankRowStops(before: seq<string>, blank: string, after: seq<string>)
    requires forall i :: 0 <= i < |before| ==> Split(before[i]) != []
    requires Split(blank) == []
    ensures DevicePaths(before + [blank] + after) == DevicePaths(before)
    ensures FirstBlank(before + [blank] + after) == |before|
  {
    var rows := before + [blank] + after;
    var k := FirstBlank(rows);
    assert forall i :: 0 <= i < |before| ==> rows[i] == before[i];
    assert rows[|before|] == blank;
    assert k == |before|;
    FirstBlankFull(before);
  }

  // ---------------------------------------------------------------------------
  // start_restore

  /** The restore checkboxes, in the order the command appends their flags. */
  datatype RestoreOptions = RestoreOptions(
    dryRun: bool, ignoreErrors: bool, overwrite: bool,
    metadata: bool, symlinks: bool, subvolume: bool)

  const RestoreFlags: seq<string> := ["-D", "-i", "-o", "-m", "-S", "-s"]

  function Checked(o: RestoreOptions): seq<bool> {
    [o.dryRun, o.ignoreErrors, o.overwrite, o.metadata, o.symlinks, o.subvolume]
  }

  /** The flags whose box is checked, in table order. */
  function Selected(flags: seq<string>, on: seq<bool>): seq<string>
    requires |flags| == |on|
  {
    if flags == [] then []
    else (if on[0] then [flags[0]] else []) + Selected(flags[1..], on[1..])
  }

  /** Each flag preceded by one space. */
  function Suffix(flags: seq<string>): string {
    if flags == [] then "" else " " + flags[0] + Suffix(flags[1..])
  }

  function CountTrue(on: seq<bool>): nat {
    if on == [] then 0 else (if on[0] then 1 else 0) + CountTrue(on[1..])
  }

  predicate IsSubsequence(xs: seq<string>, ys: seq<string>)
    decreases |ys|
  {
    if xs == [] then true
    else if ys == [] then false
    else if xs[0] == ys[0] then IsSubsequence(xs[1..], ys[1..])
    else IsSubsequence(xs, ys[1..])
  }

  /** `"btrfs restore {device} {restore_path}"` followed by the checked flags. */
  function RestoreCommand(device: string, path: string, o: RestoreOptions): string {
    "btrfs restore " + device + " " + path + Suffix(Selected(RestoreFlags, Checked(o)))
  }

  /** The path `start_restore` reads back from the status: its text with every
      "Restore path: " removed. */
  function RestorePath(labelText: string): string {
    RemoveAll(labelText, PathPrefix)
  }

  /** What `start_restore` does with the current device and status text. */
  function RestorePlan(device: string, labelText: string, o: RestoreOptions): (p: Plan<string>)
    ensures p.Run? <==> device != "" && device != Placeholder && RestorePath(labelText) != ""
    ensures p.Refuse? && (device == "" || device == Placeholder) ==> p.message == InvalidDevice
    ensures p.Refuse? && device != "" && device != Placeholder ==> p.message == MissingPath
    ensures p.Run? ==> p.command == RestoreCommand(device, RestorePath(labelText), o)
  {
    var path := RestorePath(labelText);
    if device == "" || device == Placeholder then Refuse(InvalidDevice)
    else if path == "" then Refuse(MissingPath)
    else Run(RestoreCommand(device, path, o))
  }

  /** The status after the restore command ran. */
  function RestoreMessage(c: Completed): string {
    if c.returncode == 0 then "Restore successful: " + c.stdout else "Error: " + c.stderr
  }

  /** The status tells success from failure by its first words, and the stream follows them. */
  lemma RestoreMessageMarksOutcome(c: Completed)
    ensures c.returncode == 0 ==>
      StartsWith(RestoreMessage(c), "Restore successful: ") && !StartsWith(RestoreMessage(c), "Error: ") &&
      RestoreMessage(c)[20..] == c.stdout
    ensures c.returncode != 0 ==> StartsWith(RestoreMessage(c), "Error: ") && RestoreMessage(c)[7..] == c.stderr
  {
    if c.returncode == 0 {
      assert RestoreMessage(c)[0] == 'R';
    }
  }

  /** The appends of `start_restore`, one checkbox after the other. */
  method BuildRestoreCommand(device: string, path: string, o: RestoreOptions) returns (command: string)
    ensures command == RestoreCommand(device, path, o)
  {
    command := "btrfs restore " + device + " " + path;
    ghost var base := command;
    ghost var before := command;
    if o.dryRun { command := command + " -D"; }
    assert command == before + If(o.dryRun, " -D");
    before := command;
    if o.ignoreErrors { command := command + " -i"; }
    assert command == before + If(o.ignoreErrors, " -i");
    before := command;
    if o.overwrite { command := command + " -o"; }
    assert command == before + If(o.overwrite, " -o");
    before := command;
    if o.metadata { command := command + " -m"; }
    assert command == before + If(o.metadata, " -m");
    before := command;
    if o.symlinks { command := command + " -S"; }
    assert command == before + If(o.symlinks, " -S");
    before := command;
    if o.subvolume { command := command + " -s"; }
    assert command == before + If(o.subvolume, " -s");
    RestoreCommandAppends(device, path, o);
  }

  /** The command with each checked box's flag appended in turn. */
  function Appended(base: string, o: RestoreOptions): string {
    base + If(o.dryRun, " -D") + If(o.ignoreErrors, " -i") + If(o.overwrite, " -o")
      + If(o.metadata, " -m") + If(o.symlinks, " -S") + If(o.subvolume, " -s")
  }

  lemma RestoreCommandAppends(device: string, path: string, o: RestoreOptions)
    ensures RestoreCommand(device, path, o) == Appended("btrfs restore " + device + " " + path, o)
  {
    var base := "btrfs restore " + device + " " + path;
    FirstThreeBoxes(base, o);
    LastThreeBoxes(base, o);
    AllBoxes(o);
  }

  /** The first three boxes, looked at in turn. */
  lemma FirstThreeBoxes(base: string, o: RestoreOptions)
    ensures PartialCommand(base, o, 3) ==
      base + If(o.dryRun, " -D") + If(o.ignoreErrors, " -i") + If(o.overwrite, " -o")
  {
    NoBoxes(base, o);
    DryRunBox(base, o);
    IgnoreErrorsBox(base, o);
    OverwriteBox(base, o);
  }

  /** The last three boxes, looked at in turn. */
  lemma LastThreeBoxes(base: string, o: RestoreOptions)
    ensures PartialCommand(base, o, 6) ==
      PartialCommand(base, o, 3) + If(o.metadata, " -m") + If(o.symlinks, " -S") + If(o.subvolume, " -s")
  {
    MetadataBox(base, o);
    SymlinksBox(base, o);
    SubvolumeBox(base, o);
  }

  lemma NoBoxes(base: string, o: RestoreOptions)
    ensures PartialCommand(base, o, 0) == base
  {
    assert RestoreFlags[..0] == [] && Checked(o)[..0] == [];
  }

  lemma DryRunBox(base: string, o: RestoreOptions)
    ensures PartialCommand(base, o, 1) == PartialCommand(base, o, 0) + If(o.dryRun, " -D")
  {
    FlagStep(base, o, 0);
    assert " " + RestoreFlags[0] == " -D";
  }

  lemma IgnoreErrorsBox(base: string, o: RestoreOptions)
    ensures PartialCommand(base, o, 2) == PartialCommand(base, o, 1) + If(o.ignoreErrors, " -i")
  {
    FlagStep(base, o, 1);
    assert " " + RestoreFlags[1] == " -i";
  }

  lemma OverwriteBox(base: string, o: RestoreOptions)
    ensures PartialCommand(base, o, 3) == PartialCommand(base, o, 2) + If(o.overwrite, " -o")
  {
    FlagStep(base, o, 2);
    assert " " + RestoreFlags[2] == " -o";
  }

  lemma MetadataBox(base: string, o: RestoreOptions)
    ensures PartialCommand(base, o, 4) == PartialCommand(base, o, 3) + If(o.metadata, " -m")
  {
    FlagStep(base, o, 3);
    assert " " + RestoreFlags[3] == " -m";
  }

  lemma SymlinksBox(base: string, o: RestoreOptions)
    ensures PartialCommand(base, o, 5) == PartialCommand(base, o, 4) + If(o.symlinks, " -S")
  {
    FlagStep(base, o, 4);
    assert " " + RestoreFlags[4] == " -S";
  }

  lemma SubvolumeBox(base: string, o: RestoreOptions)
    ensures PartialCommand(base, o, 6) == PartialCommand(base, o, 5) + If(o.subvolume, " -s")
  {
    FlagStep(base, o, 5);
    assert " " + RestoreFlags[5] == " -s";
  }

  /** The text appended for one box: `s` when it is checked, else nothing. */
  function If(on: bool, s: string): string {
    if on then s else ""
  }

  /** The command once the first `k` boxes have been looked at. */
  function PartialCommand(base: string, o: RestoreOptions, k: nat): string
    requires k <= 6
  {
    base + Suffix(Selected(RestoreFlags[..k], Checked(o)[..k]))
  }

  /** Looking at box `k` appends its flag exactly when it is checked. */
  lemma FlagStep(base: string, o: RestoreOptions, k: nat)
    requires k < 6
    ensures PartialCommand(base, o, k + 1) == PartialCommand(base, o, k) + If(Checked(o)[k], " " + RestoreFlags[k])
  {
    SuffixStep(base, RestoreFlags, Checked(o), k);
  }

  /** Looking at one more flag appends it, after a space, exactly when it is on. */
  lemma SuffixStep(base: string, flags: seq<string>, on: seq<bool>, k: nat)
    requires |flags| == |on| && k < |flags|
    ensures base + Suffix(Selected(flags[..k + 1], on[..k + 1])) ==
      base + Suffix(Selected(flags[..k], on[..k])) + If(on[k], " " + flags[k])
  {
    var fs, bs := flags[..k], on[..k];
    TakeOneMore(flags, k);
    TakeOneMore(on, k);
    SelectedSnoc(fs, bs, flags[k], on[k]);
    var tail := if on[k] then [flags[k]] else [];
    var done := Selected(fs, bs);
    SuffixAppend(done, tail);
    assert Suffix(tail) == If(on[k], " " + flags[k]) by {
      if on[k] {
        assert Suffix(tail) == " " + flags[k] + Suffix([]);
      }
    }
  }

  /** Six boxes, six flags. */
  lemma AllBoxes(o: RestoreOptions)
    ensures RestoreFlags[..6] == RestoreFlags && Checked(o)[..6] == Checked(o)
  {
  }

  lemma {:induction false} SelectedSnoc(fs: seq<string>, bs: seq<bool>, f: string, b: bool)
    requires |fs| == |bs|
    ensures Selected(fs + [f], bs + [b]) == Selected(fs, bs) + (if b then [f] else [])
    decreases |fs|
  {
    if fs == [] {
      assert fs + [f] == [f] && bs + [b] == [b];
    } else {
      assert (fs + [f])[1..] == fs[1..] + [f];
      assert (bs + [b])[1..] == bs[1..] + [b];
      SelectedSnoc(fs[1..], bs[1..], f, b);
    }
  }

  lemma {:induction false} SuffixAppend(xs: seq<string>, ys: seq<string>)
    ensures Suffix(xs + ys) == Suffix(xs) + Suffix(ys)
    decreases |xs|
  {
    if xs == [] {
      assert xs + ys == ys;
    } else {
      assert (xs + ys)[1..] == xs[1..] + ys;
      SuffixAppend(xs[1..], ys);
    }
  }

  /** As many flags are appended as boxes are checked. */
  lemma {:induction false} SelectedCount(flags: seq<string>, on: seq<bool>)
    requires |flags| == |on|
    ensures |Selected(flags, on)| == CountTrue(on)
    decreases |flags|
  {
    if flags != [] {
      SelectedCount(flags[1..], on[1..]);
    }
  }

  /** A flag is appended exactly when its box is checked (the flags are distinct). */
  lemma {:induction false} SelectedMember(flags: seq<string>, on: seq<bool>, i: nat)
    requires |flags| == |on| && i < |flags|
    requires forall a, b :: 0 <= a < b < |flags| ==> flags[a] != flags[b]
    ensures flags[i] in Selected(flags, on) <==> on[i]
    decreases |flags|
  {
    var rest := Selected(flags[1..], on[1..]);
    assert Selected(flags, on) == (if on[0] then [flags[0]] else []) + rest;
    if i == 0 {
      if flags[0] in rest {
        SelectedWithin(flags[1..], on[1..], flags[0]);
      }
    } else {
      SelectedMember(flags[1..], on[1..], i - 1);
      assert flags[1..][i - 1] == flags[i];
    }
  }

  lemma {:induction false} SelectedWithin(flags: seq<string>, on: seq<bool>, f: string)
    requires |flags| == |on|
    ensures f in Selected(flags, on) ==> f in flags
    decreases |flags|
  {
    if flags != [] {
      SelectedWithin(flags[1..], on[1..], f);
    }
  }

  /** The appended flags keep the table's order: they form a subsequence of the table. */
  lemma {:induction false} SelectedInOrder(flags: seq<string>, on: seq<bool>)
    requires |flags| == |on|
    ensures IsSubsequence(Selected(flags, on), flags)
    decreases |flags|
  {
    if flags != [] {
      var rest := Selected(flags[1..], on[1..]);
      SelectedInOrder(flags[1..], on[1..]);
      if on[0] {
        assert Selected(flags, on) == [flags[0]] + rest;
        assert ([flags[0]] + rest)[1..] == rest;
        assert ([flags[0]] + rest)[0] == flags[0];
      } else {
        assert Selected(flags, on) == rest;
        SubsequenceOfTail(rest, flags);
      }
    }
  }

  lemma {:induction false} SubsequenceOfTail(xs: seq<string>, ys: seq<string>)
    requires ys != [] && IsSubsequence(xs, ys[1..])
    ensures IsSubsequence(xs, ys)
    decreases |ys|, |xs|
  {
    if xs != [] && xs[0] == ys[0] {
      SubsequenceDropFirst(xs, ys[1..]);
    }
  }

  lemma {:induction false} SubsequenceDropFirst(xs: seq<string>, ys: seq<string>)
    requires xs != [] && IsSubsequence(xs, ys)
    ensures IsSubsequence(xs[1..], ys)
    decreases |ys|, |xs|
  {
    if ys != [] {
      if xs[0] == ys[0] {
        SubsequenceOfTail(xs[1..], ys);
      } else {
        SubsequenceDropFirst(xs, ys[1..]);
        SubsequenceOfTail(xs[1..], ys);
      }
    }
  }

  /** The facts about the restore flags gathered for one call: the appended flags are the
      checked ones, as many as are checked, in table order. */
  lemma RestoreFlagsFaithful(o: RestoreOptions)
    ensures |Selected(RestoreFlags, Checked(o))| == CountTrue(Checked(o))
    ensures forall i :: 0 <= i < 6 ==> (RestoreFlags[i] in Selected(RestoreFlags, Checked(o)) <==> Checked(o)[i])
    ensures IsSubsequence(Selected(RestoreFlags, Checked(o)), RestoreFlags)
  {
    SelectedCount(RestoreFlags, Checked(o));
    SelectedInOrder(RestoreFlags, Checked(o));
    forall i | 0 <= i < 6
      ensures RestoreFlags[i] in Selected(RestoreFlags, Checked(o)) <==> Checked(o)[i]
    {
      SelectedMember(RestoreFlags, Checked(o), i);
    }
  }

  lemma {:induction false} SplitSuffix(a: string, flags: seq<string>)
    requires forall i :: 0 <= i < |flags| ==> IsWord(flags[i])
    ensures Split(a + Suffix(flags)) == Split(a) + flags
    decreases |flags|
  {
    if flags == [] {
      assert a + "" == a;
    } else {
      var b := a + " " + flags[0];
      assert a + Suffix(flags) == b + Suffix(flags[1..]);
      SplitSuffix(b, flags[1..]);
      SplitSpaced(a, flags[0]);
      SplitWord(flags[0]);
      assert flags == [flags[0]] + flags[1..];
    }
  }

  lemma SelectedWords(flags: seq<string>, on: seq<bool>)
    requires |flags| == |on| && forall i :: 0 <= i < |flags| ==> IsWord(flags[i])
    ensures forall i :: 0 <= i < |Selected(flags, on)| ==> IsWord(Selected(flags, on)[i])
  {
    forall i | 0 <= i < |Selected(flags, on)| ensures IsWord(Selected(flags, on)[i]) {
      var f := Selected(flags, on)[i];
      SelectedWithin(flags, on, f);
    }
  }

  /** Word by word, the restore command is `btrfs restore`, the device's words, the path's
      words and the checked flags; split on whitespace, a device or path holding whitespace
      becomes several words. */
  lemma RestoreCommandWords(device: string, path: string, o: RestoreOptions)
    ensures Split(RestoreCommand(device, path, o)) ==
      ["btrfs", "restore"] + Split(device) + Split(path) + Selected(RestoreFlags, Checked(o))
  {
    var fs := Selected(RestoreFlags, Checked(o));
    RestoreFlagsAreWords();
    SelectedWords(RestoreFlags, Checked(o));
    var a := "btrfs restore " + device + " " + path;
    SplitSuffix(a, fs);
    RestorePrefixWords(device, path);
  }

  lemma RestoreFlagsAreWords()
    ensures forall i :: 0 <= i < |RestoreFlags| ==> IsWord(RestoreFlags[i])
  {
  }

  lemma RestorePrefixWords(device: string, path: string)
    ensures Split("btrfs restore " + device + " " + path) ==
      ["btrfs", "restore"] + Split(device) + Split(path)
  {
    var tail := device + " " + path;
    assert "btrfs restore " + device + " " + path == "btrfs restore " + tail;
    assert IsWord("btrfs") && IsWord("restore");
    SplitWordsPrefix("btrfs", "restore", "btrfs restore ", tail);
    SplitSpaced(device, path);
  }

  /** A directory chosen in the dialog is the path the next restore uses, when the name
      itself does not contain "Restore path: ". */
  lemma ChosenPathIsUsed(device: string, chosen: string, o: RestoreOptions)
    requires device != "" && device != Placeholder && chosen != ""
    requires !Contains(chosen, PathPrefix)
    ensures RestorePlan(device, PathPrefix + chosen, o) == Run(RestoreCommand(device, chosen, o))
  {
    RemovePrefix(PathPrefix, chosen);
  }

  /** The status label is also where the path is kept, so after a refused restore its message is
      what the next restore takes as the path: once a device is picked, the command runs
      with "Please select a valid device." as its target directory. */
  lemma RefusalBecomesPath(device: string, o: RestoreOptions)
    requires device != "" && device != Placeholder
    ensures RestorePlan(device, InvalidDevice, o) == Run(RestoreCommand(device, InvalidDevice, o))
  {
    assert forall i :: 0 <= i < |InvalidDevice| ==> InvalidDevice[i] != 'R';
    AbsentByFirstChar(InvalidDevice, PathPrefix);
    RemoveAllAbsent(InvalidDevice, PathPrefix);
  }

  // ---------------------------------------------------------------------------
  // create_btrfs_subvolume and list_subvolumes

  /** The device check that guards restore, subvolume creation and listing. */
  predicate ValidDevice(device: string) {
    device != "" && device != Placeholder
  }

  function CreateSubvolumePlan(device: string): (p: Plan<string>)
    ensures p.Run? <==> ValidDevice(device)
    ensures p.Refuse? ==> p.message == InvalidDevice
    ensures p.Run? ==> p.command == "sudo btrfs subvolume create " + device + "/subvolume_name"
  {
    if !ValidDevice(device) then Refuse(InvalidDevice)
    else Run("sudo btrfs subvolume create " + device + "/subvolume_name")
  }

  /** The created subvolume is always named `subvolume_name` under the device path; when the
      device has no whitespace the command splits on whitespace into five words. */
  lemma CreateSubvolumeWords(device: string)
    requires ValidDevice(device) && IsWord(device)
    ensures Split(CreateSubvolumePlan(device).command) ==
      ["sudo", "btrfs", "subvolume", "create", device + "/subvolume_name"]
  {
    var target := device + "/subvolume_name";
    CreateCommandSplits(device);
    SubvolumeTargetIsWord(device);
    SplitWord(target);
  }

  lemma CreateCommandSplits(device: string)
    ensures Split("sudo btrfs subvolume create " + device + "/subvolume_name") ==
      ["sudo", "btrfs"] + (["subvolume", "create"] + Split(device + "/subvolume_name"))
  {
    var target := device + "/subvolume_name";
    assert "sudo btrfs subvolume create " + device + "/subvolume_name" ==
      "sudo btrfs " + ("subvolume create " + target);
    SudoBtrfsWords("subvolume create " + target);
    SubvolumeCreateWords(target);
  }

  lemma SubvolumeCreateWords(rest: string)
    ensures Split("subvolume create " + rest) == ["subvolume", "create"] + Split(rest)
  {
    assert "subvolume create " + rest == "subvolume" + " " + "create" + " " + rest;
    assert IsWord("subvolume") && IsWord("create");
    SplitTwoWordsThen("subvolume", "create", rest);
  }

  lemma SubvolumeTargetIsWord(device: string)
    requires IsWord(device)
    ensures IsWord(device + "/subvolume_name")
  {
    assert IsWord("/subvolume_name");
    WordsGlue(device, "/subvolume_name");
  }

  /** The status after the creation command ran. */
  function CreateSubvolumeMessage(c: Completed): string {
    if c.returncode == 0 then "Subvolume created: " + c.stdout else "Error creating subvolume: " + c.stderr
  }

  /** The status tells success from failure by its first words, and the stream follows them. */
  lemma CreateSubvolumeMessageMarksOutcome(c: Completed)
    ensures c.returncode == 0 ==>
      StartsWith(CreateSubvolumeMessage(c), "Subvolume created: ") && !StartsWith(CreateSubvolumeMessage(c), "Error") &&
      CreateSubvolumeMessage(c)[19..] == c.stdout
    ensures c.returncode != 0 ==>
      StartsWith(CreateSubvolumeMessage(c), "Error creating subvolume: ") && CreateSubvolumeMessage(c)[26..] == c.stderr
  {
    if c.returncode == 0 {
      assert CreateSubvolumeMessage(c)[0] == 'S';
    }
  }

  function ListSubvolumesPlan(device: string): (p: Plan<string>)
    ensures p.Run? <==> ValidDevice(device)
    ensures p.Refuse? ==> p.message == InvalidDevice
    ensures p.Run? ==> p.command == "sudo btrfs subvolume list " + device
  {
    if !ValidDevice(device) then Refuse(InvalidDevice)
    else Run("sudo btrfs subvolume list " + device)
  }

  /** Split on whitespace, the listing command is `sudo btrfs subvolume list` followed by the
      device's words. */
  lemma ListCommandSplits(device: string)
    ensures Split("sudo btrfs subvolume list " + device) == ["sudo", "btrfs"] + (["subvolume", "list"] + Split(device))
  {
    var rest := "subvolume list " + device;
    assert "sudo btrfs subvolume list " + device == "sudo btrfs " + rest;
    SudoBtrfsWords(rest);
    assert IsWord("subvolume") && IsWord("list");
    SplitWordsPrefix("subvolume", "list", "subvolume list ", device);
  }

  /** The listing names the chosen device as its only operand; a device without whitespace is
      one word, so the command splits into five. */
  lemma ListSubvolumesWords(device: string)
    requires ValidDevice(device) && IsWord(device)
    ensures Split(ListSubvolumesPlan(device).command) == ["sudo", "btrfs", "subvolume", "list", device]
  {
    ListCommandSplits(device);
    SplitWord(device);
  }

  /** The status after listing: the stripped listing under a heading, a fixed notice when the
      listing is empty, the error stream on failure. */
  function ListSubvolumesMessage(c: Completed): string {
    if c.returncode != 0 then "Error listing subvolumes: " + c.stderr
    else
      var subvolumes := Strip(c.stdout);
      if subvolumes != "" then "Subvolumes:\n" + subvolumes else "No subvolumes found."
  }

  /** A successful listing reports "No subvolumes found." exactly when the tool printed only
      whitespace; otherwise it shows the trimmed listing under "Subvolumes:". */
  lemma ListSubvolumesCases(c: Completed)
    requires c.returncode == 0
    ensures ListSubvolumesMessage(c) == "No subvolumes found." <==> AllSpace(c.stdout)
    ensures !AllSpace(c.stdout) ==>
      ListSubvolumesMessage(c) == "Subvolumes:\n" + Strip(c.stdout) &&
      !IsSpace(Strip(c.stdout)[0]) && !IsSpace(Strip(c.stdout)[|Strip(c.stdout)| - 1])
  {
    StripEmpty(c.stdout);
    StripEnds(c.stdout);
    var s := Strip(c.stdout);
    if s != "" {
      assert ("Subvolumes:\n" + s)[0] == 'S';
      assert "No subvolumes found."[0] == 'N';
    }
  }

  // ---------------------------------------------------------------------------
  // The screen

  class RestoreScreen {
    var devices: Combo
    /** The status label; `start_restore` also reads the restore path back from it. */
    var status: string

    /** The combo box gets its placeholder, then `populate_device_list` runs. */
    constructor (lsblk: Launch)
      ensures (devices, status) == Populated(AddItem(Empty(false), Placeholder), "", lsblk)
      ensures CurrentText(devices) == Placeholder
    {
      devices := AddItem(Empty(false), Placeholder);
      status := "";
      new;
      PopulateDeviceList(lsblk);
    }

    method PopulateDeviceList(lsblk: Launch)
      requires Valid(devices) && 0 <= devices.index
      modifies this
      ensures (devices, status) == Populated(old(devices), old(status), lsblk)
      ensures CurrentText(devices) == CurrentText(old(devices))
    {
      match lsblk
      case Raised(e) =>
        status := "Error fetching devices: " + e;
      case Ran(r) =>
        if r.returncode == 0 {
          var rows := Rows(r.stdout);
          ghost var start := devices;
          ghost var paths := DevicePaths(rows);
          AddKeepsSelection(start, paths);
          var i := 0;
          while i < |rows|
            invariant 0 <= i <= FirstBlank(rows)
            invariant devices == AddItems(start, paths[..i])
            invariant status == old(status)
          {
            var parts := Split(rows[i]);
            if |parts| == 0 {
              status := "Error fetching devices: " + NoFirstToken;
              assert paths[..i] == paths;
              return;
            }
            AddItemsTwice(start, paths[..i], [paths[i]]);
            TakeOneMore(paths, i);
            devices := AddItem(devices, "/dev/" + parts[0]);
            i := i + 1;
          }
          assert paths[..i] == paths;
        }
    }

    /** The user picks entry `i`. */
    method Select(i: int)
      modifies this
      ensures devices == SetCurrentIndex(old(devices), i) && status == old(status)
    {
      devices := SetCurrentIndex(devices, i);
    }

    /** `open_file_dialog`: a chosen directory is written to the status label; a cancelled dialog
        (the empty string) changes nothing. */
    method OpenFileDialog(chosen: string)
      modifies this
      ensures devices == old(devices)
      ensures status == if chosen != "" then PathPrefix + chosen else old(status)
    {
      if chosen != "" {
        status := PathPrefix + chosen;
      }
    }

    method StartRestore(o: RestoreOptions, shell: string -> Completed) returns (ran: Option<string>)
      modifies this
      ensures devices == old(devices)
      ensures match RestorePlan(CurrentText(old(devices)), old(status), o)
        case Refuse(m) => ran == None && status == m
        case Run(cmd) => ran == Some(cmd) && status == RestoreMessage(shell(cmd))
    {
      var device := CurrentText(devices);
      var restorePath := RemoveAll(status, PathPrefix);
      if device == "" || device == Placeholder {
        status := InvalidDevice;
        return None;
      }
      if restorePath == "" {
        status := MissingPath;
        return None;
      }
      var command := BuildRestoreCommand(device, restorePath, o);
      var result := shell(command);
      status := RestoreMessage(result);
      ran := Some(command);
    }

    method CreateBtrfsSubvolume(shell: string -> Completed) returns (ran: Option<string>)
      modifies this
      ensures devices == old(devices)
      ensures match CreateSubvolumePlan(CurrentText(old(devices)))
        case Refuse(m) => ran == None && status == m
        case Run(cmd) => ran == Some(cmd) && status == CreateSubvolumeMessage(shell(cmd))
    {
      var device := CurrentText(devices);
      if device == "" || device == Placeholder {
        status := InvalidDevice;
        return None;
      }
      var command := "sudo btrfs subvolume create " + device + "/subvolume_name";
      status := CreateSubvolumeMessage(shell(command));
      ran := Some(command);
    }

    method ListSubvolumes(shell: string -> Completed) returns (ran: Option<string>)
      modifies this
      ensures devices == old(devices)
      ensures match ListSubvolumesPlan(CurrentText(old(devices)))
        case Refuse(m) => ran == None && status == m
        case Run(cmd) => ran == Some(cmd) && status == ListSubvolumesMessage(shell(cmd))
    {
      var device := CurrentText(devices);
      if device == "" || device == Placeholder {
        status := InvalidDevice;
        return None;
      }
      var command := "sudo btrfs subvolume list " + device;
      status := ListSubvolumesMessage(shell(command));
      ran := Some(command);
    }
  }
}
