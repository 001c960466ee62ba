# btrfs-progs-gui: a verified model of the screens' operation layer

btrfs-progs-gui is a set of PyQt6 screens that run `btrfs` subcommands. This project models
what each screen decides and does, apart from drawing widgets:

- how it reads `lsblk` output into a device or mount-point list;
- which argument vector (or shell string) each button builds, and when the guards refuse;
- which text ends up in the output area (or, on the balance screen, the debug console);
- how the screen's own state changes: its combo boxes, the output text and the console log.

The model follows each source file's own form:

- **Pure screens.** The filesystem and property screens are functions from the button's
  operation name and the field texts to a plan and an output text.
- **Stateful screens.** The other seven (device manager, restore, subvolume, quota, scrub,
  rescue, balance) are classes. Their fields are the combo boxes, the output text and the
  console. Their methods carry `modifies` clauses, and each method's `ensures` ties the new
  state to specification functions. Those functions' properties are proved as lemmas.
- **Loops.** Loops in the source become `while` loops with invariants:
  - the mount-point collection;
  - the one-`addItem`-per-row fills;
  - the restore device list;
  - the flag appends of `btrfs restore`, as a method.

Shared modules:

- `PyText` models the Python `str` methods the screens use: `split()`, `splitlines()`,
  `strip()`, `replace(p, "")` and `" ".join`. It keeps Python's whitespace and line-break sets.
- `Process` holds the `subprocess.run` result (`Completed`), the exception it may raise
  instead (`Launch.Raised`), and the shared mapping to the text shown: stdout on exit code 0,
  otherwise `"Error: "` followed by stderr.
- `QtCombo` is a value model of the part of `QComboBox` the screens use. Adding rows to an
  empty combo box that has no current row and no placeholder text makes the first row current.
  An index outside the rows leaves no row current.
- `Lsblk` has the parse shared by the subvolume, quota and scrub screens. It also has a model
  of a well-formed two-column listing, against which the parsers are stated.

Running `lsblk` and `btrfs` is a parameter of the model, not part of it:

- `exec: seq<string> -> Launch` stands for `subprocess.run` with an argument vector.
- `shell: string -> Completed` stands for the `shell=True, check=True` calls of the restore
  screen. Their only handled failure is `CalledProcessError`.

## Model

| member | source | states |
|---|---|---|
| PyText.Split | devicemanager_btrfsqt6.py:222 | `str.split()`: every token is non-empty and whitespace-free |
| PyText.WordLength | devicemanager_btrfsqt6.py:169 | the first token of a line ends at the first whitespace character |
| PyText.SplitWord | devicemanager_btrfsqt6.py:222 | a whitespace-free non-empty text splits into itself alone |
| PyText.SplitAllSpace | devicemanager_btrfsqt6.py:222 | a text made only of whitespace splits into no tokens |
| PyText.SplitJoin | diskbalance_btrfsqt6.py:88 | splitting words joined by single spaces gives the words back |
| PyText.Join | diskbalance_btrfsqt6.py:88 | definition: `sep.join(xs)`; SplitJoin and DiskBalance.LoggedCommandLine state its properties |
| PyText.LineLength | devicemanager_btrfsqt6.py:168 | a line runs up to the first line-boundary character |
| PyText.SplitLines | devicemanager_btrfsqt6.py:168 | `str.splitlines()`: no line holds a line boundary, and there are never more lines than characters |
| PyText.SplitLinesTerminated | devicemanager_btrfsqt6.py:168 | text made of lines each ended by a newline splits back into those lines |
| PyText.LStrip | property_btrfsqt6.py:140 | leading whitespace removed: the result is a suffix that starts with non-whitespace |
| PyText.RStrip | property_btrfsqt6.py:140 | trailing whitespace removed: the result is a prefix that ends with non-whitespace |
| PyText.StripIsTrimmedSlice | property_btrfsqt6.py:140-142 | `strip()` is a slice of its input with whitespace at neither end |
| PyText.StripEmpty | subvolume_btrfsqt6.py:156-158 | stripping leaves the empty string exactly when the text is all whitespace |
| PyText.StripIdempotent | property_btrfsqt6.py:140-142 | stripping twice is stripping once |
| PyText.StripWord | rescue_btrfsqt6.py:143 | a whitespace-free name survives `strip()` unchanged |
| PyText.Strip | property_btrfsqt6.py:140-142 | definition: `str.strip()` as RStrip of LStrip; StripIsTrimmedSlice, StripEmpty, StripIdempotent and StripWord state its properties |
| PyText.RemoveAll | diskrecovery_btrfsqt6.py:183 | `replace(p, "")`: the result is never longer than the input |
| PyText.RemoveAllAbsent | diskrecovery_btrfsqt6.py:183 | a text without the pattern is left unchanged |
| PyText.RemovePrefix | diskrecovery_btrfsqt6.py:183 | "Restore path: " followed by a text without that pattern gives that text back |
| Process.SudoBtrfs | devicemanager_btrfsqt6.py:222 | the argument vector starts with `sudo btrfs`, and every later argument is whitespace-free |
| Process.SudoBtrfsWords | diskrecovery_btrfsqt6.py:225 | a shell string starting "sudo btrfs " splits into those two words and the rest |
| Process.GroupVerbArgv | subvolume_btrfsqt6.py:190 | a "group verb operands" command becomes sudo, btrfs, group, verb and the words of the operands |
| Process.ShownRecoversStream | devicemanager_btrfsqt6.py:223-226 | for one exit code, equal shown texts mean equal stdout (code 0) or equal stderr |
| Process.FailureIsMarked | devicemanager_btrfsqt6.py:225-226 | a nonzero exit always shows "Error: " followed by exactly stderr |
| Process.SetText | subvolume_btrfsqt6.py:143-145 | definition: a write to a text widget that may not exist yet; the widget then holds the text, or the write raises AttributeError |
| Process.StartupOf | subvolume_btrfsqt6.py:33 | definition: a constructor returns when its handler did, and raises what escaped it otherwise |
| Process.Shown | devicemanager_btrfsqt6.py:223-226 | definition: stdout on exit code 0, otherwise "Error: " and stderr; ShownRecoversStream and FailureIsMarked state that the stream can be read back |
| Process.Outcome | devicemanager_btrfsqt6.py:221-228 | definition: Shown for a completed run, "Error executing command: " and `str(e)` when `subprocess.run` raised; used by every `RunBtrfsCommand` contract |
| QtCombo.Empty | devicemanager_btrfsqt6.py:26 | a new combo box has no rows and a valid (absent) current index |
| QtCombo.CurrentText | subvolume_btrfsqt6.py:155 | definition: `currentText()`, the current row, or "" when no row is current; SetCurrentIndex and AddKeepsSelection state what it reads after a change |
| QtCombo.AddItems | devicemanager_btrfsqt6.py:163 | rows are appended in order; an existing current row is kept; validity is kept |
| QtCombo.AddItem | subvolume_btrfsqt6.py:32 | definition: `addItem(x)`, one row appended, as AddItems of `[x]`; AddItemsTwice and FirstAddedIsCurrent state what a run of adds leaves |
| QtCombo.Clear | devicemanager_btrfsqt6.py:162 | no rows and no current text afterwards |
| QtCombo.SetCurrentIndex | diskquota_btrfsqt6.py:155 | rows unchanged; the current text is row `i`, or "" when `i` is out of range |
| QtCombo.AddItemsTwice | subvolume_btrfsqt6.py:140-141 | adding rows one call at a time equals adding them all at once |
| QtCombo.AddKeepsSelection | subvolume_btrfsqt6.py:140-141 | adding rows never changes the current text once a row is current |
| QtCombo.FirstAddedIsCurrent | rescue_btrfsqt6.py:29 | into an empty combo box without placeholder text, the first row added becomes current |
| Lsblk.DropHeader | subvolume_btrfsqt6.py:136 | `[1:]`: one line fewer, every remaining line shifted by one |
| Lsblk.Rows | subvolume_btrfsqt6.py:136 | definition: `stdout.splitlines()[1:]`; stated against a listing by RowsOfListing |
| Lsblk.SecondToken | subvolume_btrfsqt6.py:137-139 | definition: `parts[1]` when `len(parts) > 1`, else nothing; stated against printed rows by RenderTokens and MountColumnOfRendered |
| Lsblk.MountColumn | subvolume_btrfsqt6.py:136-139 | at most one mount point per row, each whitespace-free |
| Lsblk.MountColumnAppend | subvolume_btrfsqt6.py:136-139 | one more row adds its second token, if it has one, at the end |
| Lsblk.InMountColumn | subvolume_btrfsqt6.py:137-139 | a text is collected exactly when it is the second token of some row (both directions) |
| Lsblk.MountPointsOf | subvolume_btrfsqt6.py:135-139 | the loop collects exactly the mount column of the rows below the header |
| Lsblk.AddEach | subvolume_btrfsqt6.py:140-141 | one `addItem` per mount point equals one `addItems` of them all |
| Lsblk.MountsPopulated | subvolume_btrfsqt6.py:129-145 | definition: on exit code 0 the mount column is appended and the output kept; otherwise "Error: " and stderr, or "Error fetching devices: " and the exception; stated against a listing by PopulatedFromListing |
| Lsblk.MountsPopulateRun | subvolume_btrfsqt6.py:129-145 | definition: `populate_devices` on an output area that may not exist yet; a write that raises inside `try` is caught, and the `except` handler writes again |
| Lsblk.MountsPopulateRunPresent | subvolume_btrfsqt6.py:129-145 | with the output area in place the handler never raises, and leaves exactly MountsPopulated |
| Lsblk.MountStartupAsWritten | subvolume_btrfsqt6.py:30-33 | definition: the constructor of the subvolume, quota and scrub screens as written, the placeholder then MountsPopulateRun with no output area yet; MountStartupCrashes states when it raises |
| Lsblk.MountStartupCrashes | subvolume_btrfsqt6.py:129-145 | as written (combo box and placeholder, then `populate_devices`, with no output area yet): the constructor raises exactly when `lsblk` raised or exited nonzero, and what escapes is the AttributeError for `output_display` |
| Lsblk.RenderAll | subvolume_btrfsqt6.py:136 | a listing has one printed row per entry, in order |
| Lsblk.WordHasNoLineBreak | subvolume_btrfsqt6.py:136 | a whitespace-free cell holds no line boundary |
| Lsblk.RenderTokens | subvolume_btrfsqt6.py:137 | a printed row splits into its name cell and its mount cell, when present |
| Lsblk.LinesOfListing | subvolume_btrfsqt6.py:136 | the lines read back from a listing are the header and the printed rows |
| Lsblk.RowsOfListing | subvolume_btrfsqt6.py:136 | below the header, the rows read back are exactly the printed entries |
| Lsblk.MountColumnOfRendered | subvolume_btrfsqt6.py:137-139 | from printed rows the parse gives exactly the mount cells present, in order |
| Lsblk.MountColumnOfListing | subvolume_btrfsqt6.py:132-139 | the parse of a NAME,MOUNTPOINT listing gives exactly its mount points, unmounted rows skipped, in order |
| Lsblk.PopulatedFromListing | subvolume_btrfsqt6.py:129-141 | on a listing with exit code 0, exactly the listing's mount points are appended; the current row and the output are kept |
| DeviceManager.FirstTokenOfLine | devicemanager_btrfsqt6.py:169 | a line starting "sd" has a first token of at least two characters, where the line begins |
| DeviceManager.SdNames | devicemanager_btrfsqt6.py:168-169 | every collected name is whitespace-free and starts with "sd"; never more names than lines |
| DeviceManager.RenderStartsWith | devicemanager_btrfsqt6.py:169 | a printed row starts with "sd" exactly when its name does |
| DeviceManager.SdNamesOfRendered | devicemanager_btrfsqt6.py:168-169 | from printed rows the names are exactly the entry names starting with "sd", in order |
| DeviceManager.DiskNamesOfListing | devicemanager_btrfsqt6.py:165-169 | from a NAME,SIZE listing, exactly the "sd" names, in order; the header and tree-drawn partitions are left out |
| DeviceManager.DiskNames | devicemanager_btrfsqt6.py:168-169 | definition: SdNames of the output's lines; stated against a listing by DiskNamesOfListing |
| DeviceManager.FetchedNames | devicemanager_btrfsqt6.py:165-172 | definition: DiskNames of stdout whatever the exit code, none when `lsblk` raised; GetDevicesFromLsblk returns it |
| DeviceManager.FetchOutput | devicemanager_btrfsqt6.py:170-171 | definition: the output is kept, or "Error fetching devices: " and the exception when `lsblk` raised; GetDevicesFromLsblk leaves it |
| DeviceManager.FetchRun | devicemanager_btrfsqt6.py:165-172 | definition: `get_devices_from_lsblk` on an output area that may not exist yet; the handler's write raises when it does not |
| DeviceManager.FetchRunPresent | devicemanager_btrfsqt6.py:165-172 | with the output area in place the fetch never raises, and returns FetchedNames and leaves FetchOutput |
| DeviceManager.StartupAsWritten | devicemanager_btrfsqt6.py:26-29 | definition: the constructor as written, FetchRun with no output area yet |
| DeviceManager.StartupCrashesOnFetchError | devicemanager_btrfsqt6.py:165-172 | as written, the constructor raises exactly when `lsblk` raised, and what escapes is the AttributeError for `output_display`; a completed run of any exit code lets the screen open |
| DeviceManager.DevicePlan | devicemanager_btrfsqt6.py:174-210 | scan always runs; the other five actions are refused with their message exactly when the device is empty; runs start with `sudo btrfs` |
| DeviceManager.DeviceCommandShape | devicemanager_btrfsqt6.py:177-208 | each f-string reads "device", the verb, the device, and "/mnt" for add, remove and replace |
| DeviceManager.DeviceCommand | devicemanager_btrfsqt6.py:177-208 | definition: the six f-strings; DeviceCommandShape and DeviceArgv state their shape and argv |
| DeviceManager.DeviceArgv | devicemanager_btrfsqt6.py:174-222 | argv: `sudo btrfs device`, the verb, the device's words, then "/mnt" for add, remove and replace; scan has no device |
| DeviceManager.ScanWords | devicemanager_btrfsqt6.py:196 | the scan command splits into "device" and "scan" |
| DeviceManager.MountCommandWords | devicemanager_btrfsqt6.py:177-191 | add, remove and replace split into device, verb, the device's words and "/mnt" |
| DeviceManager.DeviceCommandWords | devicemanager_btrfsqt6.py:201-208 | stats and usage split into device, verb and the device's words |
| DeviceManager.WordDeviceArgv | devicemanager_btrfsqt6.py:174-210 | a whitespace-free device is exactly the fifth argument |
| DeviceManager.BlankEntryTargetsMount | devicemanager_btrfsqt6.py:176-191 | a whitespace-only entry passes the check, but "/mnt" then takes the device's place |
| DeviceManager.ManualUntilPicked | devicemanager_btrfsqt6.py:230-232 | after a refill no row is current, so the manual entry is used until row `i` is picked |
| DeviceManager.SelectedDevice | devicemanager_btrfsqt6.py:230-232 | definition: the combo text, or the manual entry when it is empty; ManualUntilPicked states when the manual entry is used |
| DeviceManager.DeviceScreen.constructor | devicemanager_btrfsqt6.py:26-29 | placeholder text set, then the list holds the fetched names with no row current |
| DeviceManager.DeviceScreen.GetDevicesFromLsblk | devicemanager_btrfsqt6.py:165-172 | gives the "sd" names whatever the exit code; none and the message when `lsblk` raised |
| DeviceManager.DeviceScreen.UpdateDeviceList | devicemanager_btrfsqt6.py:160-163 | the rows afterwards are exactly the fetched names: no earlier row survives |
| DeviceManager.DeviceScreen.EnterDevice | devicemanager_btrfsqt6.py:33-35 | the manual entry holds the typed text; nothing else changes |
| DeviceManager.DeviceScreen.Select | devicemanager_btrfsqt6.py:26 | the user's pick sets the current row only |
| DeviceManager.DeviceScreen.GetSelectedDevice | devicemanager_btrfsqt6.py:230-232 | the combo box's text, or the manual entry when that text is empty |
| DeviceManager.DeviceScreen.RunBtrfsCommand | devicemanager_btrfsqt6.py:220-228 | argv is `sudo btrfs` and the command's words; the output is the shown outcome |
| DeviceManager.DeviceScreen.Act | devicemanager_btrfsqt6.py:174-210 | a refusal shows its message and runs nothing; otherwise the planned argv runs and its outcome is shown |
| DiskRecovery.FirstBlank | diskrecovery_btrfsqt6.py:167-169 | the loop gets past exactly the leading rows that have a first token |
| DiskRecovery.DevicePaths | diskrecovery_btrfsqt6.py:167-170 | an entry per row before the first blank one, each "/dev/" and the row's first token |
| DiskRecovery.Populated | diskrecovery_btrfsqt6.py:162-172 | definition: on exit code 0 the rows before the first blank one are added, and a blank row sets "Error fetching devices: list index out of range"; another exit code changes nothing; a raise sets the exception's message |
| DiskRecovery.PopulateRun | diskrecovery_btrfsqt6.py:162-172 | definition: `populate_device_list` on a status label that may not exist yet; the IndexError of a blank row and a raise from `lsblk` reach the handler, whose write raises when the label does not exist |
| DiskRecovery.PopulateRunPresent | diskrecovery_btrfsqt6.py:162-172 | with the status label in place the handler never raises, and leaves exactly Populated |
| DiskRecovery.StartupAsWritten | diskrecovery_btrfsqt6.py:98-100 | definition: the constructor as written, placeholder then PopulateRun with no status label yet |
| DiskRecovery.StartupCrashes | diskrecovery_btrfsqt6.py:162-172 | as written, the constructor raises exactly when `lsblk` raised, or exited 0 with a row below the header that has no token; what escapes is the AttributeError for `output_label` |
| DiskRecovery.BlankRowCrashesStartup | diskrecovery_btrfsqt6.py:168-172 | a blank row anywhere below the header, after rows that have a token, makes the constructor raise the AttributeError for `output_label` |
| DiskRecovery.DevicePathsOfListing | diskrecovery_btrfsqt6.py:165-170 | on a well-formed listing every row gives "/dev/" and its name, in order |
| DiskRecovery.FirstBlankFull | diskrecovery_btrfsqt6.py:168-170 | with no blank row, every row is read |
| DiskRecovery.BlankRowStops | diskrecovery_btrfsqt6.py:168-170 | a blank row stops the list there; the rows after it are never read |
| DiskRecovery.RestorePlan | diskrecovery_btrfsqt6.py:180-194 | runs exactly with a real device and a non-empty path; the device message wins when both fail; the command is the restore command |
| DiskRecovery.ValidDevice | diskrecovery_btrfsqt6.py:185 | definition: not empty and not the placeholder; the guard of RestorePlan, CreateSubvolumePlan and ListSubvolumesPlan |
| DiskRecovery.RestorePath | diskrecovery_btrfsqt6.py:183 | definition: the label text with every "Restore path: " removed; ChosenPathIsUsed and RefusalBecomesPath state what it reads back |
| DiskRecovery.RestoreCommand | diskrecovery_btrfsqt6.py:194-208 | definition: the prefix and the selected flags; RestoreCommandAppends, RestoreFlagsFaithful and RestoreCommandWords state its content |
| DiskRecovery.RestoreMessage | diskrecovery_btrfsqt6.py:210-215 | definition: "Restore successful: " and stdout, or "Error: " and stderr of the CalledProcessError |
| DiskRecovery.RestoreMessageMarksOutcome | diskrecovery_btrfsqt6.py:210-215 | success and failure are told apart by the first words, and stdout or stderr follows them exactly |
| DiskRecovery.BuildRestoreCommand | diskrecovery_btrfsqt6.py:194-208 | the six appends give the restore command: the prefix, then the checked flags in table order |
| DiskRecovery.RestoreCommandAppends | diskrecovery_btrfsqt6.py:194-208 | the restore command is the prefix with each checked box's flag appended in turn |
| DiskRecovery.FirstThreeBoxes | diskrecovery_btrfsqt6.py:197-202 | the dry-run, ignore-errors and overwrite boxes append " -D", " -i", " -o" when checked |
| DiskRecovery.LastThreeBoxes | diskrecovery_btrfsqt6.py:203-208 | the metadata, symlink and subvolume boxes append " -m", " -S", " -s" when checked |
| DiskRecovery.NoBoxes | diskrecovery_btrfsqt6.py:194 | before any box is looked at, the command is the prefix |
| DiskRecovery.DryRunBox | diskrecovery_btrfsqt6.py:197-198 | " -D" is appended exactly when dry run is checked |
| DiskRecovery.IgnoreErrorsBox | diskrecovery_btrfsqt6.py:199-200 | " -i" is appended exactly when ignore errors is checked |
| DiskRecovery.OverwriteBox | diskrecovery_btrfsqt6.py:201-202 | " -o" is appended exactly when overwrite is checked |
| DiskRecovery.MetadataBox | diskrecovery_btrfsqt6.py:203-204 | " -m" is appended exactly when metadata is checked |
| DiskRecovery.SymlinksBox | diskrecovery_btrfsqt6.py:205-206 | " -S" is appended exactly when symlinks is checked |
| DiskRecovery.SubvolumeBox | diskrecovery_btrfsqt6.py:207-208 | " -s" is appended exactly when subvolume is checked |
| DiskRecovery.FlagStep | diskrecovery_btrfsqt6.py:197-208 | box `k` appends its flag, after a space, exactly when it is checked |
| DiskRecovery.SelectedCount | diskrecovery_btrfsqt6.py:197-208 | as many flags are appended as boxes are checked |
| DiskRecovery.SelectedMember | diskrecovery_btrfsqt6.py:197-208 | a flag is appended exactly when its box is checked |
| DiskRecovery.SelectedWithin | diskrecovery_btrfsqt6.py:197-208 | nothing but table flags is appended |
| DiskRecovery.SelectedInOrder | diskrecovery_btrfsqt6.py:197-208 | the appended flags are a subsequence of the table: its order is kept |
| DiskRecovery.RestoreFlagsFaithful | diskrecovery_btrfsqt6.py:197-208 | for the six restore boxes: count, membership in both directions, and table order |
| DiskRecovery.RestoreCommandWords | diskrecovery_btrfsqt6.py:194-212 | word by word: `btrfs restore`, the device's words, the path's words, then the checked flags |
| DiskRecovery.RestorePrefixWords | diskrecovery_btrfsqt6.py:194 | the prefix splits into "btrfs", "restore", the device's words and the path's words |
| DiskRecovery.ChosenPathIsUsed | diskrecovery_btrfsqt6.py:177-194 | a directory picked in the dialog is the path the next restore uses |
| DiskRecovery.RefusalBecomesPath | diskrecovery_btrfsqt6.py:183-194 | once a restore has been refused, the refusal message sits in the status label and the next restore takes it as its path |
| DiskRecovery.CreateSubvolumePlan | diskrecovery_btrfsqt6.py:217-225 | runs exactly for a real device, with the command `sudo btrfs subvolume create {device}/subvolume_name`; otherwise the device message |
| DiskRecovery.CreateSubvolumeWords | diskrecovery_btrfsqt6.py:225 | the target is always `{device}/subvolume_name`, one word for a whitespace-free device |
| DiskRecovery.CreateCommandSplits | diskrecovery_btrfsqt6.py:225 | the shell string splits into sudo, btrfs, subvolume, create and the words of the target |
| DiskRecovery.SubvolumeCreateWords | diskrecovery_btrfsqt6.py:225 | "subvolume create " and the rest split into those two words and the rest's words |
| DiskRecovery.SubvolumeTargetIsWord | diskrecovery_btrfsqt6.py:225 | a whitespace-free device gives a whitespace-free target |
| DiskRecovery.CreateSubvolumeMessage | diskrecovery_btrfsqt6.py:224-228 | definition: "Subvolume created: " and stdout, or "Error creating subvolume: " and stderr |
| DiskRecovery.CreateSubvolumeMessageMarksOutcome | diskrecovery_btrfsqt6.py:224-228 | success and failure are told apart by the first words, and stdout or stderr follows them exactly |
| DiskRecovery.ListSubvolumesPlan | diskrecovery_btrfsqt6.py:230-239 | runs exactly for a real device, with the command `sudo btrfs subvolume list {device}`; otherwise the device message |
| DiskRecovery.ListCommandSplits | diskrecovery_btrfsqt6.py:239 | split on whitespace, the listing command is sudo, btrfs, subvolume, list and the device's words |
| DiskRecovery.ListSubvolumesWords | diskrecovery_btrfsqt6.py:239 | for a whitespace-free device the command is exactly the five words, the device last |
| DiskRecovery.ListSubvolumesMessage | diskrecovery_btrfsqt6.py:240-246 | definition: the stripped listing under "Subvolumes:", "No subvolumes found." when it is empty, or "Error listing subvolumes: " and stderr; ListSubvolumesCases states its cases |
| DiskRecovery.ListSubvolumesCases | diskrecovery_btrfsqt6.py:240-244 | "No subvolumes found." exactly when the listing is all whitespace; otherwise the stripped listing under its heading |
| DiskRecovery.RestoreScreen.constructor | diskrecovery_btrfsqt6.py:98-100 | the placeholder first, then the device list; the placeholder stays current |
| DiskRecovery.RestoreScreen.PopulateDeviceList | diskrecovery_btrfsqt6.py:162-172 | rows up to the first blank one are added; a blank row stops with the IndexError message; a raise shows its message |
| DiskRecovery.RestoreScreen.Select | diskrecovery_btrfsqt6.py:98 | the user's pick sets the current row only |
| DiskRecovery.RestoreScreen.OpenFileDialog | diskrecovery_btrfsqt6.py:174-178 | a chosen directory writes "Restore path: " and it to the status; a cancelled dialog changes nothing |
| DiskRecovery.RestoreScreen.StartRestore | diskrecovery_btrfsqt6.py:180-215 | a refusal writes its message and runs nothing; otherwise the command runs and its outcome is written |
| DiskRecovery.RestoreScreen.CreateBtrfsSubvolume | diskrecovery_btrfsqt6.py:217-228 | a refusal or the shell string's outcome, as planned |
| DiskRecovery.RestoreScreen.ListSubvolumes | diskrecovery_btrfsqt6.py:230-246 | a refusal or the listing's message, as planned |
| Subvolume.SubvolumePlan | subvolume_btrfsqt6.py:154-185 | runs exactly off the placeholder with the needed stripped fields non-empty; each action's own refusal; argv `sudo btrfs subvolume`, the verb, the operands' words |
| Subvolume.SubvolumeArgv | subvolume_btrfsqt6.py:159-190 | the four f-strings become `sudo btrfs subvolume`, the verb, and the operands' words |
| Subvolume.Operands | subvolume_btrfsqt6.py:159-183 | definition: what follows the verb in each of the four f-strings; CreateArgv, DeleteArgv, ListArgv and SnapshotArgv state how it splits |
| Subvolume.SubvolumeCommand | subvolume_btrfsqt6.py:159-183 | definition: "subvolume", the verb and the operands; SubvolumeArgv states its argv |
| Subvolume.Refusal | subvolume_btrfsqt6.py:161-185 | definition: the four refusal messages; SubvolumePlan and BlankPathRefused state when each is shown |
| Subvolume.CreateArgv | subvolume_btrfsqt6.py:154-161 | create passes `{device}/{path}/{name}` as one argument |
| Subvolume.DeleteArgv | subvolume_btrfsqt6.py:163-169 | delete passes `{device}/{path}` as one argument |
| Subvolume.ListArgv | subvolume_btrfsqt6.py:171-176 | list ignores both fields and passes the mount point alone |
| Subvolume.SnapshotArgv | subvolume_btrfsqt6.py:178-185 | the snapshot's destination is its source `{device}/{path}` followed by "/" and the name |
| Subvolume.PlanSeesStrippedFields | subvolume_btrfsqt6.py:154-185 | the actions see the fields only through their stripped text |
| Subvolume.BlankPathRefused | subvolume_btrfsqt6.py:154-169 | a whitespace-only path refuses every action that needs a path |
| Subvolume.SubvolumeScreen.constructor | subvolume_btrfsqt6.py:29-33 | the placeholder, then the mount points; the placeholder stays current |
| Subvolume.SubvolumeScreen.PopulateDevices | subvolume_btrfsqt6.py:129-145 | the mount column is appended on exit code 0; otherwise the error message; the placeholder stays first |
| Subvolume.SubvolumeScreen.Select | subvolume_btrfsqt6.py:30 | the user's pick sets the current row only |
| Subvolume.SubvolumeScreen.RunBtrfsCommand | subvolume_btrfsqt6.py:187-196 | argv is `sudo btrfs` and the command's words; the output is the shown outcome |
| Subvolume.SubvolumeScreen.Act | subvolume_btrfsqt6.py:154-185 | a refusal shows its message and runs nothing; otherwise the planned argv runs and its outcome is shown |
| DiskQuota.QuotaPlan | diskquota_btrfsqt6.py:132-151 | runs exactly off the placeholder; argv `sudo btrfs quota`, the verb, the mount point's words |
| DiskQuota.QuotaArgv | diskquota_btrfsqt6.py:135-165 | the three f-strings become `sudo btrfs quota`, the verb, and the mount point's words |
| DiskQuota.QuotaCommand | diskquota_btrfsqt6.py:135-149 | definition: the three f-strings "quota", the verb and the mount point; QuotaArgv states their argv |
| DiskQuota.WordDeviceArgv | diskquota_btrfsqt6.py:132-151 | a whitespace-free mount point is the fifth and last argument |
| DiskQuota.QuotaScreen.constructor | diskquota_btrfsqt6.py:26-30 | the placeholder, then the mount points; the placeholder stays current |
| DiskQuota.QuotaScreen.PopulateDevices | diskquota_btrfsqt6.py:114-130 | the mount column is appended on exit code 0; otherwise the error message; the placeholder stays first |
| DiskQuota.QuotaScreen.Select | diskquota_btrfsqt6.py:27 | the user's pick sets the current row only |
| DiskQuota.QuotaScreen.RunBtrfsCommand | diskquota_btrfsqt6.py:162-171 | argv is `sudo btrfs` and the command's words; the output is the shown outcome |
| DiskQuota.QuotaScreen.Act | diskquota_btrfsqt6.py:132-151 | a refusal shows its message and runs nothing; otherwise the planned argv runs and its outcome is shown |
| DiskQuota.QuotaScreen.Back | diskquota_btrfsqt6.py:153-160 | the rows are kept, the placeholder is current again, and the output holds only the termination notice |
| DiskQuota.BackRefusesActions | diskquota_btrfsqt6.py:153-155 | after the back button, every quota action is refused |
| DiskScrub.ScrubPlan | diskscrub_btrfsqt6.py:133-159 | runs exactly off the placeholder; argv `sudo btrfs scrub`, the verb, the mount point's words |
| DiskScrub.ScrubArgv | diskscrub_btrfsqt6.py:136-170 | the four f-strings become `sudo btrfs scrub`, the verb, and the mount point's words |
| DiskScrub.ScrubCommand | diskscrub_btrfsqt6.py:136-157 | definition: the four f-strings "scrub", the verb and the mount point; ScrubArgv states their argv |
| DiskScrub.WordDeviceArgv | diskscrub_btrfsqt6.py:133-159 | a whitespace-free mount point is the fifth and last argument |
| DiskScrub.ScrubScreen.constructor | diskscrub_btrfsqt6.py:27-31 | the placeholder, then the mount points; the placeholder stays current |
| DiskScrub.ScrubScreen.PopulateDevices | diskscrub_btrfsqt6.py:115-131 | the mount column is appended on exit code 0; otherwise the error message; the placeholder stays first |
| DiskScrub.ScrubScreen.Select | diskscrub_btrfsqt6.py:28 | the user's pick sets the current row only |
| DiskScrub.ScrubScreen.RunBtrfsCommand | diskscrub_btrfsqt6.py:167-176 | argv is `sudo btrfs` and the command's words; the output is the shown outcome |
| DiskScrub.ScrubScreen.Act | diskscrub_btrfsqt6.py:133-159 | a refusal shows its message and runs nothing; otherwise the planned argv runs and its outcome is shown |
| Rescue.RescueDevices | rescue_btrfsqt6.py:139-143 | one path per line below the header, each "/dev/" and that line stripped |
| Rescue.ReturnCodeIgnored | rescue_btrfsqt6.py:139-143 | the exit code and stderr of `lsblk` make no difference to the list |
| Rescue.RescueDevicesOfListing | rescue_btrfsqt6.py:139-143 | on a one-column listing, exactly "/dev/" and each name, in order |
| Rescue.DevPaths | rescue_btrfsqt6.py:143 | definition: the comprehension "/dev/" and each line stripped; RescueDevices states it per line |
| Rescue.FetchedDevices | rescue_btrfsqt6.py:136-146 | definition: RescueDevices of stdout whatever the exit code, none when `lsblk` raised; ReturnCodeIgnored states the exit code is not read |
| Rescue.FetchOutput | rescue_btrfsqt6.py:144-145 | definition: the output is kept, or "Error retrieving devices: " and the exception when `lsblk` raised |
| Rescue.GetDevicesRun | rescue_btrfsqt6.py:136-146 | definition: `get_devices` on an output area that may not exist yet; the handler's write raises when it does not |
| Rescue.GetDevicesRunPresent | rescue_btrfsqt6.py:136-146 | with the output area in place the fetch never raises, and returns FetchedDevices and leaves FetchOutput |
| Rescue.StartupAsWritten | rescue_btrfsqt6.py:28-29 | definition: the constructor as written, GetDevicesRun with no output area yet |
| Rescue.StartupCrashes | rescue_btrfsqt6.py:136-146 | as written, the constructor raises exactly when `lsblk` raised, and what escapes is the AttributeError for `output_display` |
| Rescue.RescuePlan | rescue_btrfsqt6.py:148-174 | the empty-device refusal comes first; runs exactly for a table operation; an unknown name gives "Invalid Operation"; argv starts `sudo btrfs rescue` and the operation |
| Rescue.TablesDisjoint | rescue_btrfsqt6.py:156-171 | no operation both takes and omits the device |
| Rescue.DeviceIsLastArgument | rescue_btrfsqt6.py:156-169 | the six device operations pass the device as the fifth and last argument |
| Rescue.NoDeviceArgument | rescue_btrfsqt6.py:164-171 | create-control-device and clear-uuid-tree pass exactly four arguments |
| Rescue.ButtonsAreKnown | rescue_btrfsqt6.py:38-67 | every button sends a known operation, and every table operation has a button |
| Rescue.RescueScreen.constructor | rescue_btrfsqt6.py:28-29 | the combo box holds the fetched paths; the first is current, or none when the list is empty |
| Rescue.RescueScreen.GetDevices | rescue_btrfsqt6.py:136-146 | the paths, or none and the message when `lsblk` raised |
| Rescue.RescueScreen.Select | rescue_btrfsqt6.py:28 | the user's pick sets the current row only |
| Rescue.RescueScreen.RunRescueOperation | rescue_btrfsqt6.py:148-183 | a refusal shows its message and runs nothing; otherwise the planned argv runs and its outcome is shown |
| Rescue.EmptyListRefusesAll | rescue_btrfsqt6.py:150-153 | with no device listed, every operation is refused with the device message |
| Filesystem.FilesystemArgv | filesystem_btrfsqt6.py:127-144 | an argv exactly for the seven button names, each starting `sudo btrfs filesystem` and the name |
| Filesystem.DiskOperationOutput | filesystem_btrfsqt6.py:124-153 | a known name shows its run's outcome; an unknown name shows the UnboundLocalError message |
| Filesystem.RootOperationArgv | filesystem_btrfsqt6.py:127-136 | df, du, show, sync and defragment pass "/" as their only operand |
| Filesystem.ResizeArgv | filesystem_btrfsqt6.py:137-140 | resize passes the fixed size 10G before "/" |
| Filesystem.MkswapfileArgv | filesystem_btrfsqt6.py:141-144 | mkswapfile passes the fixed swap-file path and no "/" |
| Filesystem.UnknownRunsNothing | filesystem_btrfsqt6.py:126-153 | an unknown name runs nothing: its output is the same whatever a run would do |
| Filesystem.ArgvShape | filesystem_btrfsqt6.py:127-144 | the fourth argument is the name; the last is "/" exactly when the name is not mkswapfile |
| Property.PropertyPlan | property_btrfsqt6.py:138-153 | runs exactly for get, list, or set with a non-blank value; otherwise the input message; argv starts `sudo btrfs property`, the operation, the stripped object |
| Property.Chain | property_btrfsqt6.py:144-153 | on stripped fields: runs exactly for get, list, or set with a non-empty value, otherwise the input message; argv starts `sudo btrfs property`, the operation, the object |
| Property.PropertyOutput | property_btrfsqt6.py:138-162 | a refusal shows the input message; otherwise the planned run's outcome |
| Property.GetArgv | property_btrfsqt6.py:145-146 | get passes the stripped object and name, even an empty name |
| Property.SetArgv | property_btrfsqt6.py:147-148 | set runs exactly when the value is not all whitespace, and passes object, name and value |
| Property.ListIgnoresNameAndValue | property_btrfsqt6.py:149-150 | list passes only the object; the name and value fields make no difference |
| Property.PlanSeesStrippedFields | property_btrfsqt6.py:140-142 | whitespace around any field makes no difference |
| Property.RefusalRunsNothing | property_btrfsqt6.py:151-153 | a refused operation's output is the same whatever a run would do |
| Property.ButtonsRefusedOnlyForBlankValue | property_btrfsqt6.py:138-153 | of the three buttons, only set is ever refused, and only when the value is all whitespace |
| DiskBalance.MountEntries | diskbalance_btrfsqt6.py:68-71 | never more entries than rows; each entry is non-empty and already stripped |
| DiskBalance.MountEntriesSnoc | diskbalance_btrfsqt6.py:69-71 | one more row adds its stripped text at the end, unless it is blank |
| DiskBalance.MountEntriesAppend | diskbalance_btrfsqt6.py:68-71 | the entries of two blocks of rows are those of the first, then those of the second, so order is kept |
| DiskBalance.ListedSnoc | diskbalance_btrfsqt6.py:69-71 | some row of a longer listing strips to `x` exactly when an earlier row or the new one does |
| DiskBalance.MountEntriesMembership | diskbalance_btrfsqt6.py:68-71 | a text is listed exactly when it is non-empty and some row strips to it (both directions) |
| DiskBalance.AddMountEntries | diskbalance_btrfsqt6.py:69-71 | one `addItem` per non-blank stripped row equals adding exactly the entries, in order |
| DiskBalance.BalancePopulated | diskbalance_btrfsqt6.py:63-75 | definition: on exit code 0 the entries are added and the console kept; otherwise one entry, "Error fetching mount points!" or "Error: " and the exception; the entries are stated by MountEntriesMembership and MountEntriesAppend |
| DiskBalance.Append | diskbalance_btrfsqt6.py:73-75 | definition: `debug_console.append` on a console that may not exist yet; it raises AttributeError when it does not |
| DiskBalance.PopulateRun | diskbalance_btrfsqt6.py:63-75 | definition: `populate_mount_points` on a console that may not exist yet; an append that raises inside `try` is caught, and the `except` handler appends again |
| DiskBalance.PopulateRunPresent | diskbalance_btrfsqt6.py:63-75 | with the console in place the handler never raises, and leaves exactly BalancePopulated |
| DiskBalance.StartupAsWritten | diskbalance_btrfsqt6.py:32-39 | definition: the constructor as written, PopulateRun on a fresh combo box with no console yet |
| DiskBalance.StartupCrashes | diskbalance_btrfsqt6.py:63-75 | as written, the constructor raises exactly when `lsblk` raised or exited nonzero, and what escapes is the AttributeError for `debug_console` |
| DiskBalance.RunEntries | diskbalance_btrfsqt6.py:77-96 | an empty path appends the refusal alone; otherwise the command line, then the outcome entry |
| DiskBalance.BalanceArgv | diskbalance_btrfsqt6.py:87 | definition: `["btrfs", "balance", command, path]`; LoggedCommandLine and LoggedLineSplitsBack state how it is logged |
| DiskBalance.Report | diskbalance_btrfsqt6.py:91-96 | definition: "Output:\n" and stdout, "Error:\n" and stderr, or "Exception: " and the exception; ReportMarksOutcome states the markers |
| DiskBalance.LoggedCommandLine | diskbalance_btrfsqt6.py:87-88 | the logged line is "btrfs balance", the command and the path joined by single spaces |
| DiskBalance.LoggedLineSplitsBack | diskbalance_btrfsqt6.py:87-88 | for whitespace-free command and path, the logged line splits back into the argv |
| DiskBalance.ReportMarksOutcome | diskbalance_btrfsqt6.py:91-94 | exit code 0 logs "Output:" and a newline, then stdout; otherwise "Error:" and a newline, then stderr |
| DiskBalance.BalanceScreen.constructor | diskbalance_btrfsqt6.py:23-39 | the five commands with "start" current, then the mount points, with the console existing before they are fetched |
| DiskBalance.BalanceScreen.PopulateMountPoints | diskbalance_btrfsqt6.py:63-75 | the entries are added on exit code 0; otherwise one error entry is logged |
| DiskBalance.BalanceScreen.SelectCommand | diskbalance_btrfsqt6.py:23-24 | the user's pick sets the current command only |
| DiskBalance.BalanceScreen.SelectPath | diskbalance_btrfsqt6.py:32 | the user's pick sets the current path only |
| DiskBalance.BalanceScreen.RunCommand | diskbalance_btrfsqt6.py:77-96 | the console gains one run's entries and keeps all it held; the command runs exactly when a path is current, with argv `btrfs balance`, command, path |
| DiskBalance.SessionKeepsPrefix | diskbalance_btrfsqt6.py:77-96 | over any number of presses, the console only grows: its earlier entries stay its prefix, and each press adds one or two entries |
| DiskBalance.Session | diskbalance_btrfsqt6.py:77-96 | definition: presses of the run button one after another, each appending RunEntries; SessionKeepsPrefix states the console only grows |
| DiskBalance.NoMountsRefusesAll | diskbalance_btrfsqt6.py:82-84 | with no mount point listed, every press is refused and nothing runs |

## Left out

- Widgets, layouts, style sheets and window set-up are presentation only, and are not modelled.
- Running processes is not modelled. `subprocess.run` is the parameter `exec`, and the
  `shell=True` calls of the restore screen are the parameter `shell`. The model does not
  parse shell syntax, and a `shell` call models only the result or `CalledProcessError`.
- The back buttons only launch another executable and are not modelled. This covers each
  screen's `execute_back_command`, `go_back` and `run_back_process`. The quota screen's
  `back_action` is modelled, apart from `QProcess.terminate`.
- The quota screen's `QProcess` streaming (`start_subprocess`, `read_output`, `read_error`)
  is asynchronous and is not modelled.
- The restore screen's clipboard context menu is not modelled.
- main-btrfsqt6.py is not part of this model. It is a launcher menu of path checks.
- `QFileDialog` is modelled only as the directory it returns, "" when cancelled.
- The console of the balance screen is a list of appended entries. Qt's paragraph layout is
  not modelled.
- Select methods (`Select` and `SelectPath` on every screen, `SelectCommand` on balance):
  a user's pick is modelled as `setCurrentIndex` with any integer, which is more than a real
  user can produce.
- Filesystem.DiskOperationOutput: the UnboundLocalError text uses the wording of Python 3.11
  and later; older versions word it differently.
- The exception texts `str(e)` are parameters of the model, except two: the AttributeError
  and the IndexError of the restore list.
- Stripping and splitting use Python's whitespace set of code points; text encodings are not
  modelled.

## Findings

| source | as written | input that shows it | evidently intended | confidence | as-written member | corrected member |
|---|---|---|---|---|---|---|
| devicemanager_btrfsqt6.py:29 | the device list is filled before `output_display` is created (line 75), so the fetch handler's write raises AttributeError out of the constructor | `lsblk` cannot be started, e.g. the executable is missing | the screen opens with an empty list and "Error fetching devices: …" in the output | not executed | DeviceManager.StartupCrashesOnFetchError | DeviceManager.DeviceScreen.constructor |
| diskrecovery_btrfsqt6.py:100 | the device list is filled before `output_label` is created (line 157); a blank row's IndexError, or a raise from `lsblk`, reaches the handler, whose write raises AttributeError | `lsblk` exits 0 with a blank line below the header, or cannot be started | the screen opens, listing the rows before the blank one, with the error in the status label | not executed | DiskRecovery.StartupCrashes | DiskRecovery.RestoreScreen.constructor |
| subvolume_btrfsqt6.py:33 | the mount points are filled before `output_display` is created (line 73); both error branches write to it | `lsblk` exits 1 | the screen opens with only the placeholder and "Error: " and stderr in the output | not executed | Lsblk.MountStartupCrashes | Subvolume.SubvolumeScreen.constructor |
| diskquota_btrfsqt6.py:30 | the mount points are filled before `output_display` is created (line 58); both error branches write to it | `lsblk` exits 1 | the screen opens with only the placeholder and "Error: " and stderr in the output | not executed | Lsblk.MountStartupCrashes | DiskQuota.QuotaScreen.constructor |
| diskscrub_btrfsqt6.py:31 | the mount points are filled before `output_display` is created (line 59); both error branches write to it | `lsblk` exits 1 | the screen opens with only the placeholder and "Error: " and stderr in the output | not executed | Lsblk.MountStartupCrashes | DiskScrub.ScrubScreen.constructor |
| rescue_btrfsqt6.py:29 | the device list is fetched before `output_display` is created (line 71); the fetch handler writes to it | `lsblk` cannot be started | the screen opens with an empty list and "Error retrieving devices: …" in the output | not executed | Rescue.StartupCrashes | Rescue.RescueScreen.constructor |
| diskbalance_btrfsqt6.py:33 | the mount points are filled before `debug_console` is created (line 39); both error branches append to it | `lsblk` exits 1 | the screen opens and the console holds "Error fetching mount points!" | not executed | DiskBalance.StartupCrashes | DiskBalance.BalanceScreen.constructor |
