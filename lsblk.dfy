/** Reading the text that `lsblk` prints: its rows after the header line, the mount-point
    column read by the subvolume, quota and scrub screens, and a model of a well-formed
    listing that the parsers are proved against. */
module Lsblk {
  import opened PyText
  import opened Process
  import opened QtCombo

  /** `lines[1:]`: every line but the first, and nothing when there are no lines. */
  function DropHeader(lines: seq<string>): (r: seq<string>)
    ensures |r| == if lines == [] then 0 else |lines| - 1
    ensures forall i :: 0 <= i < |r| ==> r[i] == lines[i + 1]
  {
    if lines == [] then [] else lines[1..]
  }

  /** `stdout.splitlines()[1:]`: the rows below the header. */
  function Rows(stdout: string): seq<string> {
    DropHeader(SplitLines(stdout))
  }

  /** The second token of a row, when the row has one. */
  function SecondToken(row: string): seq<string> {
    var parts := Split(row);
    if |parts| > 1 then [parts[1]] else []
  }

  /** The mount points the subvolume, quota and scrub screens collect: the second token of
      every row that has at least two, in row order. */
  function MountColumn(rows: seq<string>): (r: seq<string>)
    ensures |r| <= |rows|
    ensures forall i :: 0 <= i < |r| ==> IsWord(r[i])
  {
    if rows == [] then [] else SecondToken(rows[0]) + MountColumn(rows[1..])
  }

  lemma {:induction false} MountColumnAppend(rows: seq<string>, row: string)
    ensures MountColumn(rows + [row]) == MountColumn(rows) + SecondToken(row)
    decreases |rows|
  {
    if rows == [] {
      assert rows + [row] == [row];
    } else {
      assert (rows + [row])[1..] == rows[1..] + [row];
      MountColumnAppend(rows[1..], row);
    }
  }

  /** Exactly the second tokens of rows that have one occur in the mount column. */
  lemma {:induction false} InMountColumn(rows: seq<string>, m: string)
    ensures m in MountColumn(rows) <==>
      exists i :: 0 <= i < |rows| && |Split(rows[i])| > 1 && Split(rows[i])[1] == m
    decreases |rows|
  {
    if rows != [] {
      InMountColumn(rows[1..], m);
      if m in MountColumn(rows[1..]) {
        var i :| 0 <= i < |rows[1..]| && |Split(rows[1..][i])| > 1 && Split(rows[1..][i])[1] == m;
        assert rows[i + 1] == rows[1..][i];
      }
      if exists i :: 0 <= i < |rows| && |Split(rows[i])| > 1 && Split(rows[i])[1] == m {
        var i :| 0 <= i < |rows| && |Split(rows[i])| > 1 && Split(rows[i])[1] == m;
        if i > 0 {
          assert rows[1..][i - 1] == rows[i];
        }
      }
    }
  }

  /** The loop of `populate_devices` in the subvolume, quota and scrub screens (it is the same
      code in all three): it appends `parts[1]` for each row after the header whose `parts`
      has more than one token. */
  method MountPointsOf(stdout: string) returns (devices: seq<string>)
    ensures devices == MountColumn(Rows(stdout))
  {
    var rows := Rows(stdout);
    devices := [];
    var i := 0;
    while i < |rows|
      invariant 0 <= i <= |rows|
      invariant devices == MountColumn(rows[..i])
    {
      var parts := Split(rows[i]);
      MountColumnAppend(rows[..i], rows[i]);
      TakeOneMore(rows, i);
      if |parts| > 1 && parts[1] != "" {
        devices := devices + [parts[1]];
      } else {
        assert SecondToken(rows[i]) == [];
      }
      i := i + 1;
    }
    assert rows[..i] == rows;
  }

  /** `for device in devices: combo.addItem(device)`. */
  method AddEach(c: Combo, xs: seq<string>) returns (r: Combo)
    ensures r == AddItems(c, xs)
  {
    r := c;
    var i := 0;
    while i < |xs|
      invariant 0 <= i <= |xs|
      invariant r == AddItems(c, xs[..i])
    {
      AddItemsTwice(c, xs[..i], [xs[i]]);
      TakeOneMore(xs, i);
      r := AddItem(r, xs[i]);
      i := i + 1;
    }
    assert xs[..i] == xs;
  }

  /** The combo box and output text after `populate_devices` of the subvolume, quota and scrub
      screens, read the way it is meant to: mount points appended on exit code 0, the error
      stream shown on any other code, the exception's text when `lsblk` cannot be run. */
  function MountsPopulated(devices: Combo, output: string, lsblk: Launch): (Combo, string) {
    match lsblk
    case Raised(e) => (devices, "Error fetching devices: " + e)
    case Ran(r) =>
      if r.returncode == 0 then (AddItems(devices, MountColumn(Rows(r.stdout))), output)
      else (devices, "Error: " + r.stderr)
  }

  /** `populate_devices` of those three screens, run on a combo box and an output area that
      may not exist yet. A write in the `try` body that raises is caught by the
      `except Exception` handler, whose own write to the same widget then runs. */
  function MountsPopulateRun(cls: string, devices: Combo, output: Option<string>, lsblk: Launch): Attempt<(Combo, Option<string>)> {
    match lsblk
    case Raised(e) => SetText(devices, output, cls, "output_display", "Error fetching devices: " + e)
    case Ran(r) =>
      if r.returncode == 0 then Done((AddItems(devices, MountColumn(Rows(r.stdout))), output))
      else
        var w := SetText(devices, output, cls, "output_display", "Error: " + r.stderr);
        if w.Done? then w else SetText(devices, output, cls, "output_display", "Error fetching devices: " + w.error)
  }

  /** With its output area in place the handler never raises, and it leaves what the screens'
      `PopulateDevices` promises. */
  lemma MountsPopulateRunPresent(cls: string, devices: Combo, output: string, lsblk: Launch)
    ensures var (c, o) := MountsPopulated(devices, output, lsblk);
      MountsPopulateRun(cls, devices, Some(output), lsblk) == Done((c, Some(o)))
  {
  }

  /** The first entry of those three combo boxes, added before they are filled. */
  const MountPlaceholder := "Select a device"

  /** The constructor of those three screens as written: the combo box and its placeholder,
      then `populate_devices`, and only afterwards the output area. */
  function MountStartupAsWritten(cls: string, lsblk: Launch): Startup {
    StartupOf(MountsPopulateRun(cls, AddItem(Empty(false), MountPlaceholder), None, lsblk))
  }

  /** As written, construction fails exactly when `lsblk` cannot be run or exits with a
      non-zero code, and it fails with the AttributeError for the missing output area: from
      the handler's write, or from the `except` handler after the `else` branch's write. */
  lemma MountStartupCrashes(cls: string, lsblk: Launch)
    ensures MountStartupAsWritten(cls, lsblk).Crashed? <==> lsblk.Raised? || lsblk.result.returncode != 0
    ensures MountStartupAsWritten(cls, lsblk).Crashed? ==>
      MountStartupAsWritten(cls, lsblk).error == NoAttribute(cls, "output_display")
  {
  }

  // ---------------------------------------------------------------------------
  // A well-formed listing, against which the parsers are stated

  /** One row of a two-column listing: the NAME cell, and the second column's cell unless
      it is blank (an unmounted device in a NAME,MOUNTPOINT listing). */
  datatype Entry = Entry(name: string, second: Option<string>)

  predicate WellFormed(e: Entry) {
    IsWord(e.name) && (e.second.Some? ==> IsWord(e.second.value))
  }

  predicate AllWellFormed(es: seq<Entry>) {
    forall i :: 0 <= i < |es| ==> WellFormed(es[i])
  }

  /** The row as printed, cells separated by a space. */
  function Render(e: Entry): string {
    if e.second.Some? then e.name + " " + e.second.value else e.name
  }

  function RenderAll(es: seq<Entry>): (rows: seq<string>)
    ensures |rows| == |es|
    ensures forall i :: 0 <= i < |es| ==> rows[i] == Render(es[i])
  {
    if es == [] then [] else [Render(es[0])] + RenderAll(es[1..])
  }

  /** The whole text: a header line, then one line per entry, each ended by "\n". */
  function Listing(header: string, es: seq<Entry>): string {
    Terminated([header] + RenderAll(es))
  }

  /** The second cells that are present, in row order. */
  function SecondCells(es: seq<Entry>): seq<string> {
    if es == [] then []
    else (if es[0].second.Some? then [es[0].second.value] else []) + SecondCells(es[1..])
  }

  lemma WordHasNoLineBreak(w: string)
    requires IsWord(w)
    ensures NoLineBreak(w)
  {
  }

  lemma RenderTokens(e: Entry)
    requires WellFormed(e)
    ensures NoLineBreak(Render(e))
    ensures Split(Render(e)) == [e.name] + (if e.second.Some? then [e.second.value] else [])
  {
    SplitWord(e.name);
    if e.second.Some? {
      SplitWord(e.second.value);
      SplitSpaced(e.name, e.second.value);
      var r := Render(e);
      forall i | 0 <= i < |r| ensures !IsLineBreak(r[i]) {
        if i < |e.name| {
          assert r[i] == e.name[i];
        } else if i > |e.name| {
          assert r[i] == e.second.value[i - |e.name| - 1];
        }
      }
    }
  }

  /** The lines read back are the header and the rendered entries. */
  lemma LinesOfListing(header: string, es: seq<Entry>)
    requires NoLineBreak(header) && AllWellFormed(es)
    ensures SplitLines(Listing(header, es)) == [header] + RenderAll(es)
  {
    var lines := [header] + RenderAll(es);
    forall i | 0 <= i < |lines| ensures NoLineBreak(lines[i]) {
      if i > 0 {
        RenderTokens(es[i - 1]);
      }
    }
    SplitLinesTerminated(lines);
  }

  /** Below the header, the rows read back are exactly the rendered entries. */
  lemma RowsOfListing(header: string, es: seq<Entry>)
    requires NoLineBreak(header) && AllWellFormed(es)
    ensures Rows(Listing(header, es)) == RenderAll(es)
  {
    LinesOfListing(header, es);
    assert ([header] + RenderAll(es))[1..] == RenderAll(es);
  }

  lemma {:induction false} MountColumnOfRendered(es: seq<Entry>)
    requires AllWellFormed(es)
    ensures MountColumn(RenderAll(es)) == SecondCells(es)
    decreases |es|
  {
    if es != [] {
      RenderTokens(es[0]);
      assert RenderAll(es)[1..] == RenderAll(es[1..]);
      MountColumnOfRendered(es[1..]);
    }
  }

  /** Reading a NAME,MOUNTPOINT listing yields exactly the mount points present, in order:
      unmounted devices (rows with one cell) are skipped and so is the header. */
  lemma MountColumnOfListing(header: string, es: seq<Entry>)
    requires NoLineBreak(header) && AllWellFormed(es)
    ensures MountColumn(Rows(Listing(header, es))) == SecondCells(es)
  {
    RowsOfListing(header, es);
    MountColumnOfRendered(es);
  }

  /** Populating from a well-formed NAME,MOUNTPOINT listing appends exactly the mount points
      present, in row order, keeps the current entry and leaves the output alone. */
  lemma PopulatedFromListing(devices: Combo, output: string, header: string, es: seq<Entry>, stderr: string)
    requires Valid(devices) && 0 <= devices.index
    requires NoLineBreak(header) && AllWellFormed(es)
    ensures var (c, o) := MountsPopulated(devices, output, Ran(Completed(0, Listing(header, es), stderr)));
      c.items == devices.items + SecondCells(es) && CurrentText(c) == CurrentText(devices) && o == output
  {
    MountColumnOfListing(header, es);
    AddKeepsSelection(devices, SecondCells(es));
  }
}
