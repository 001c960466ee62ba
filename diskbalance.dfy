/** The balance screen: a combo box of the five `btrfs balance` commands, a combo box of mount
    points read from `lsblk -o MOUNTPOINT`, and a debug console that runs only ever append to. */
module DiskBalance {
  import opened PyText
  import opened Process
  import opened QtCombo
  import opened Lsblk

  /** The commands offered, in the order the combo box lists them. */
  const BalanceCommands: seq<string> := ["start", "pause", "cancel", "resume", "status"]

  const NoPath := "Error: No path selected!"
  const FetchFailed := "Error fetching mount points!"

  // ---------------------------------------------------------------------------
  // The mount points

  /** The rows below the header, stripped, blank ones dropped, in order. */
  function MountEntries(rows: seq<string>): (r: seq<string>)
    ensures |r| <= |rows|
    ensures forall i :: 0 <= i < |r| ==> r[i] != "" && Strip(r[i]) == r[i]
    decreases |rows|
  {
    if rows == [] then []
    else
      var last := rows[|rows| - 1];
      StripIdempotent(last);
      MountEntries(rows[..|rows| - 1]) + (if Strip(last) != "" then [Strip(last)] else [])
  }

  /** One more row adds its stripped text at the end, unless it is blank. */
  lemma MountEntriesSnoc(rows: seq<string>, row: string)
    ensures MountEntries(rows + [row]) == MountEntries(rows) + (if Strip(row) != "" then [Strip(row)] else [])
  {
    assert (rows + [row])[..|rows|] == rows;
  }

  /** The parse works row by row: the entries of two blocks of rows are the entries of the
      first followed by those of the second, so the order of the listing is kept. */
  lemma {:induction false} MountEntriesAppend(a: seq<string>, b: seq<string>)
    ensures MountEntries(a + b) == MountEntries(a) + MountEntries(b)
    decreases |b|
  {
    if b != [] {
      var b' := b[..|b| - 1];
      var row := b[|b| - 1];
      assert a + b == (a + b') + [row];
      assert b == b' + [row];
      MountEntriesSnoc(a + b', row);
      MountEntriesSnoc(b', row);
      MountEntriesAppend(a, b');
    } else {
      assert a + b == a;
    }
  }

  /** Some row strips to the non-empty text `x`. */
  predicate Listed(rows: seq<string>, x: string) {
    x != "" && exists j :: 0 <= j < |rows| && Strip(rows[j]) == x
  }

  lemma ListedSnoc(rows: seq<string>, row: string, x: string)
    ensures Listed(rows + [row], x) <==> Listed(rows, x) || (x != "" && Strip(row) == x)
  {
    var all := rows + [row];
    if Listed(all, x) {
      var j :| 0 <= j < |all| && Strip(all[j]) == x;
      if j < |rows| {
        assert Strip(rows[j]) == x;
      }
    }
    if Listed(rows, x) {
      var j :| 0 <= j < |rows| && Strip(rows[j]) == x;
      assert Strip(all[j]) == x;
    }
    if x != "" && Strip(row) == x {
      assert Strip(all[|rows|]) == x;
    }
  }

  /** A text is listed exactly when it is non-empty and some row strips to it. */
  lemma {:induction false} MountEntriesMembership(rows: seq<string>, x: string)
    ensures x in MountEntries(rows) <==> Listed(rows, x)
    decreases |rows|
  {
    if rows != [] {
      var init := rows[..|rows| - 1];
      var last := rows[|rows| - 1];
      assert rows == init + [last];
      MountEntriesSnoc(init, last);
      MountEntriesMembership(init, x);
      ListedSnoc(init, last, x);
    }
  }

  /** What filling the path combo box does to it and to the console, as the handler means it. */
  function BalancePopulated(paths: Combo, console: seq<string>, lsblk: Launch): (Combo, seq<string>) {
    match lsblk
    case Raised(e) => (paths, console + ["Error: " + e])
    case Ran(r) =>
      if r.returncode == 0 then (AddItems(paths, MountEntries(Rows(r.stdout))), console)
      else (paths, console + [FetchFailed])
  }

  /** The loop of `populate_mount_points` over the rows, one `addItem` per non-blank row. */
  method AddMountEntries(c: Combo, rows: seq<string>) returns (r: Combo)
    ensures r == AddItems(c, MountEntries(rows))
  {
    r := c;
    var i := 0;
    while i < |rows|
      invariant 0 <= i <= |rows|
      invariant r == AddItems(c, MountEntries(rows[..i]))
    {
      var entry := Strip(rows[i]);
      TakeOneMore(rows, i);
      MountEntriesSnoc(rows[..i], rows[i]);
      AddItemsTwice(c, MountEntries(rows[..i]), [entry]);
      if entry != "" {
        r := AddItem(r, entry);
      } else {
        assert MountEntries(rows[..i + 1]) == MountEntries(rows[..i]);
      }
      i := i + 1;
    }
    assert rows[..i] == rows;
  }

  /** `debug_console.append(entry)` on a console that the constructor may not have created
      yet, None until the line that creates it. */
  function Append(paths: Combo, console: Option<seq<string>>, entry: string): Attempt<(Combo, Option<seq<string>>)> {
    if console.Some? then Done((paths, Some(console.value + [entry])))
    else Raise(NoAttribute("BtrfsBalanceDebugger", "debug_console"))
  }

  /** `populate_mount_points` run on a console that may not exist yet. An append in the `try`
      body that raises is caught by the `except Exception` handler, whose own append then runs. */
  function PopulateRun(paths: Combo, console: Option<seq<string>>, lsblk: Launch): Attempt<(Combo, Option<seq<string>>)> {
    match lsblk
    case Raised(e) => Append(paths, console, "Error: " + e)
    case Ran(r) =>
      if r.returncode == 0 then Done((AddItems(paths, MountEntries(Rows(r.stdout))), console))
      else
        var w := Append(paths, console, FetchFailed);
        if w.Done? then w else Append(paths, console, "Error: " + w.error)
  }

  /** With its console in place the handler never raises, and it leaves what
      `PopulateMountPoints` promises. */
  lemma PopulateRunPresent(paths: Combo, console: seq<string>, lsblk: Launch)
    ensures var (c, log) := BalancePopulated(paths, console, lsblk);
      PopulateRun(paths, Some(console), lsblk) == Done((c, Some(log)))
  {
  }

  /** The constructor as written: the command combo box, then the path combo box and
      `populate_mount_points`, and only afterwards the debug console. */
  function StartupAsWritten(lsblk: Launch): Startup {
    StartupOf(PopulateRun(Empty(false), None, lsblk))
  }

  /** As written, the screen fails to open exactly when `lsblk` cannot be run or exits with a
      non-zero code: the append to the missing console raises AttributeError out of the
      constructor, in the second case from the `except` handler after the `else` branch's own
      append raised. */
  lemma StartupCrashes(lsblk: Launch)
    ensures StartupAsWritten(lsblk).Crashed? <==> lsblk.Raised? || lsblk.result.returncode != 0
    ensures StartupAsWritten(lsblk).Crashed? ==>
      StartupAsWritten(lsblk).error == NoAttribute("BtrfsBalanceDebugger", "debug_console")
  {
  }

  // ---------------------------------------------------------------------------
  // Running a command

  /** `["btrfs", "balance", command, path]`. */
  function BalanceArgv(command: string, path: string): seq<string> {
    ["btrfs", "balance", command, path]
  }

  /** The console entry for the outcome of a run. */
  function Report(l: Launch): string {
    match l
    case Ran(c) => if c.returncode == 0 then "Output:\n" + c.stdout else "Error:\n" + c.stderr
    case Raised(e) => "Exception: " + e
  }

  /** The entries one press of the run button appends: the refusal alone, or the command line
      followed by the outcome of running it. */
  function RunEntries(command: string, path: string, exec: seq<string> -> Launch): (r: seq<string>)
    ensures path == "" ==> r == [NoPath]
    ensures path != "" ==> |r| == 2 && r[0] == "Running command: btrfs balance " + command + " " + path
    ensures path != "" ==> r[1] == Report(exec(["btrfs", "balance", command, path]))
  {
    if path == "" then [NoPath]
    else
      var argv := BalanceArgv(command, path);
      LoggedCommandLine(command, path);
      ["Running command: " + Join(" ", argv), Report(exec(argv))]
  }

  /** The logged command line is the four arguments joined by single spaces. */
  lemma LoggedCommandLine(command: string, path: string)
    ensures Join(" ", BalanceArgv(command, path)) == "btrfs balance " + command + " " + path
  {
    var argv := BalanceArgv(command, path);
    assert argv[1..][1..][1..] == [path];
    assert Join(" ", argv[1..][1..]) == command + " " + path;
  }

  /** When command and path hold no whitespace, the logged line splits back into the argument
      vector; the path is one argument even when it does not. */
  lemma LoggedLineSplitsBack(command: string, path: string)
    requires IsWord(command) && IsWord(path)
    ensures Split(Join(" ", BalanceArgv(command, path))) == BalanceArgv(command, path)
  {
    assert IsWord("btrfs") && IsWord("balance");
    SplitJoin(BalanceArgv(command, path));
  }

  /** The outcome entry tells the streams apart by its first line, and the stream follows it. */
  lemma ReportMarksOutcome(c: Completed)
    ensures c.returncode == 0 ==> StartsWith(Report(Ran(c)), "Output:\n") && Report(Ran(c))[8..] == c.stdout
    ensures c.returncode != 0 ==> StartsWith(Report(Ran(c)), "Error:\n") && Report(Ran(c))[7..] == c.stderr
  {
  }

  class BalanceScreen {
    var commands: Combo
    var paths: Combo
    var console: seq<string>

    predicate Valid()
      reads this
    {
      commands.items == BalanceCommands && QtCombo.Valid(commands) && QtCombo.Valid(paths)
    }

    /** The five commands with "start" current, then the mount points, with the console created
        before they are fetched. */
    constructor (lsblk: Launch)
      ensures Valid()
      ensures CurrentText(commands) == "start"
      ensures (paths, console) == BalancePopulated(Empty(false), [], lsblk)
    {
      commands := AddItems(Empty(false), BalanceCommands);
      paths := Empty(false);
      console := [];
      new;
      PopulateMountPoints(lsblk);
    }

    /** `populate_mount_points`. */
    method PopulateMountPoints(lsblk: Launch)
      requires Valid()
      modifies this
      ensures Valid() && commands == old(commands)
      ensures (paths, console) == BalancePopulated(old(paths), old(console), lsblk)
    {
      match lsblk
      case Raised(e) =>
        console := console + ["Error: " + e];
      case Ran(r) =>
        if r.returncode == 0 {
          paths := AddMountEntries(paths, Rows(r.stdout));
        } else {
          console := console + [FetchFailed];
        }
    }

    /** The user picks command `i`. */
    method SelectCommand(i: int)
      requires Valid()
      modifies this
      ensures Valid()
      ensures commands == SetCurrentIndex(old(commands), i) && paths == old(paths) && console == old(console)
    {
      commands := SetCurrentIndex(commands, i);
    }

    /** The user picks path `i`. */
    method SelectPath(i: int)
      requires Valid()
      modifies this
      ensures Valid()
      ensures paths == SetCurrentIndex(old(paths), i) && commands == old(commands) && console == old(console)
    {
      paths := SetCurrentIndex(paths, i);
    }

    /** `run_command`: the console gains the entries of one run and keeps all it held; the
        command runs exactly when a path is current. */
    method RunCommand(exec: seq<string> -> Launch) returns (ran: Option<seq<string>>)
      modifies this
      ensures commands == old(commands) && paths == old(paths)
      ensures console == old(console) + RunEntries(CurrentText(old(commands)), CurrentText(old(paths)), exec)
      ensures ran == if CurrentText(old(paths)) == "" then None
                     else Some(BalanceArgv(CurrentText(old(commands)), CurrentText(old(paths))))
    {
      var command := CurrentText(commands);
      var path := CurrentText(paths);
      if path == "" {
        console := console + [NoPath];
        return None;
      }
      var argv := ["btrfs", "balance", command, path];
      ran := Some(argv);
      console := console + ["Running command: " + Join(" ", argv)];
      var result := exec(argv);
      match result
      case Ran(c) =>
        if c.returncode == 0 {
          console := console + ["Output:\n" + c.stdout];
        } else {
          console := console + ["Error:\n" + c.stderr];
        }
      case Raised(e) =>
        console := console + ["Exception: " + e];
    }
  }

  /** Presses of the run button one after another, as (command, path) pairs. */
  function Session(console: seq<string>, presses: seq<(string, string)>, exec: seq<string> -> Launch): seq<string>
    decreases |presses|
  {
    if presses == [] then console
    else Session(console + RunEntries(presses[0].0, presses[0].1, exec), presses[1..], exec)
  }

  /** The console is append-only: however many presses follow, what it held stays its prefix,
      and each press adds one entry when refused and two when it runs. */
  lemma {:induction false} SessionKeepsPrefix(console: seq<string>, presses: seq<(string, string)>, exec: seq<string> -> Launch)
    ensures |console| + |presses| <= |Session(console, presses, exec)| <= |console| + 2 * |presses|
    ensures Session(console, presses, exec)[..|console|] == console
    decreases |presses|
  {
    if presses != [] {
      var next := console + RunEntries(presses[0].0, presses[0].1, exec);
      SessionKeepsPrefix(next, presses[1..], exec);
      assert Session(console, presses, exec)[..|next|][..|console|] == next[..|console|];
    }
  }

  /** With no mount point listed, every press is refused and nothing runs. */
  lemma NoMountsRefusesAll(command: string, exec: seq<string> -> Launch)
    ensures RunEntries(command, CurrentText(Empty(false)), exec) == [NoPath]
  {
  }
}
