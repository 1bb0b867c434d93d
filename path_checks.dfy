/** The three checks the `Target` setter runs on a candidate install directory,
    in their fixed order: writability, free space, conflicting data. Each check
    writes the status line and the install gate, so a later check overwrites
    what an earlier one decided. */
module PathChecks {
  import opened Env

  /** More than this many free bytes (16 GiB) are needed; exactly 16 GiB fails. */
  const FreeSpaceThreshold: nat := 17179869184

  const AwaitingInstall := "Waiting for user to install SPV3."
  const ConflictingData :=
    "Selected folder contains existing HCE or SPV3 data. Please choose a different location."

  function NotWritable(e: Exception): string {
    "Installation not possible at selected path: " + Lower(e.message)
  }

  function NotEnoughSpace(target: string): string {
    "Not enough disk space (16GB required) at selected path: " + target
  }

  function DriveSpaceFailed(e: Exception): string {
    "Failed to get drive space: " + Lower(e.message)
  }

  /** The two fields every check writes: the status line and CanInstall. */
  datatype Gate = Gate(status: string, canInstall: bool)

  /** Path.GetPathRoot(target) and DriveInfo.GetDrives(), or the exception
      either of them raised. */
  datatype DriveList = Listed(root: string, drives: seq<Drive>) | ListFails(error: Exception)

  /** Which of the three conflict markers exist under the target: the HCE
      executable, the HXE executable and the SPV3 loader. */
  datatype Markers = Markers(hce: bool, hxe: bool, spv3: bool)

  /** What the outside world answers about one candidate target: whether the
      io.bin probe (create the directory if absent, write 8 bytes, delete, remove
      the directory again) succeeds, the drives, and the markers present. */
  datatype Probe = Probe(write: Outcome, drives: DriveList, markers: Markers)

  predicate AnyMarker(m: Markers) {
    m.hce || m.hxe || m.spv3
  }

  /** A drive the space check looks at: ready, and named as the target's root. */
  predicate Matches(d: Drive, root: string) {
    d.isReady && d.name == root
  }

  /** A drive whose free space passes the strict threshold. */
  predicate Passes(d: Drive) {
    d.freeSpace.Bytes? && d.freeSpace.n > FreeSpaceThreshold
  }

  /** First check: the verdict of the io.bin probe, whatever was there before. */
  function WriteVerdict(write: Outcome): (r: Gate)
    ensures r.canInstall <==> write.Pass?
    ensures write.Pass? ==> r.status == AwaitingInstall
  {
    match write
    case Pass => Gate(AwaitingInstall, true)
    case Fail(e) => Gate(NotWritable(e), false)
  }

  /** One matching drive with `n` readable free bytes: enough space opens the
      gate and leaves the status alone, too little writes both. */
  function FreeBytesVerdict(g: Gate, n: nat, target: string): (r: Gate)
    ensures r.canInstall <==> n > FreeSpaceThreshold
    ensures r.canInstall ==> r.status == g.status
  {
    if n > FreeSpaceThreshold then Gate(g.status, true) else Gate(NotEnoughSpace(target), false)
  }

  /** Second check: the `foreach` over the drives. A matching drive with enough
      space sets the gate and leaves the status alone; a matching drive without
      enough space writes both; a drive whose free space cannot be read ends the
      loop with the "Failed to get drive space" verdict. */
  function SpaceScan(g: Gate, drives: seq<Drive>, root: string, target: string): (r: Gate)
    decreases |drives|
    // no drive matches (a UNC path, say): the earlier verdict stands
    ensures (forall d | d in drives :: !Matches(d, root)) ==> r == g
    // the status only changes on a matching drive that does not pass
    ensures r.status != g.status ==> exists d | d in drives :: Matches(d, root) && !Passes(d)
    // the gate only opens on a matching drive that passes
    ensures r.canInstall && !g.canInstall ==> exists d | d in drives :: Matches(d, root) && Passes(d)
    // the gate only closes on a matching drive that does not pass
    ensures !r.canInstall && g.canInstall ==> exists d | d in drives :: Matches(d, root) && !Passes(d)
  {
    if drives == [] then g
    else
      var d := drives[0];
      assert forall x | x in drives[1..] :: x in drives;
      if !Matches(d, root) then SpaceScan(g, drives[1..], root, target)
      else match d.freeSpace
        case Unreadable(e) => Gate(DriveSpaceFailed(e), false)
        case Bytes(n) => SpaceScan(FreeBytesVerdict(g, n, target), drives[1..], root, target)
  }

  /** Second check as a whole: reading the target's root and the drive list may
      itself throw, which gives the same verdict as an unreadable drive. */
  function SpaceCheck(g: Gate, drives: DriveList, target: string): (r: Gate)
    ensures drives.ListFails? ==> r == Gate(DriveSpaceFailed(drives.error), false)
    ensures (drives.Listed? && forall d | d in drives.drives :: !Matches(d, drives.root)) ==> r == g
  {
    match drives
    case ListFails(e) => Gate(DriveSpaceFailed(e), false)
    case Listed(root, ds) => SpaceScan(g, ds, root, target)
  }

  /** Third check: any conflict marker refuses the folder; otherwise the
      verdict so far stands. */
  function ConflictCheck(g: Gate, m: Markers): (r: Gate)
    ensures AnyMarker(m) ==> r == Gate(ConflictingData, false)
    ensures !AnyMarker(m) ==> r == g
  {
    if AnyMarker(m) then Gate(ConflictingData, false) else g
  }

  /** The whole validation the `Target` setter runs on a new value. */
  function TargetCheck(target: string, p: Probe): (r: Gate)
    // a conflict marker decides, whatever the first two checks said
    ensures AnyMarker(p.markers) ==> r == Gate(ConflictingData, false)
    // an open gate needs no marker, a readable drive list, and either a
    // writable directory or a matching drive with enough space
    ensures r.canInstall ==>
      !AnyMarker(p.markers) && p.drives.Listed? &&
      (p.write.Pass? || exists d | d in p.drives.drives :: Matches(d, p.drives.root) && Passes(d))
    // with no matching drive, the writability verdict stands
    ensures (!AnyMarker(p.markers) && p.drives.Listed? &&
             forall d | d in p.drives.drives :: !Matches(d, p.drives.root))
            ==> r == WriteVerdict(p.write)
    ensures !AnyMarker(p.markers) && p.drives.ListFails? ==>
      r == Gate(DriveSpaceFailed(p.drives.error), false)
  {
    ConflictCheck(SpaceCheck(WriteVerdict(p.write), p.drives, target), p.markers)
  }

  /** When every matching drive has enough space and one matches, the scan opens
      the gate and keeps the status it was given. */
  lemma {:induction false} SpacePassGrants(g: Gate, drives: seq<Drive>, root: string, target: string)
    requires exists d | d in drives :: Matches(d, root)
    requires forall d | d in drives && Matches(d, root) :: Passes(d)
    ensures SpaceScan(g, drives, root, target) == Gate(g.status, true)
    decreases |drives|
  {
    var d := drives[0];
    assert forall x | x in drives[1..] :: x in drives;
    if !Matches(d, root) {
      var w :| w in drives && Matches(w, root);
      assert w in drives[1..] by { assert w == drives[0] || w in drives[1..]; }
      SpacePassGrants(g, drives[1..], root, target);
    } else if exists x | x in drives[1..] :: Matches(x, root) {
      SpacePassGrants(Gate(g.status, true), drives[1..], root, target);
    }
  }

  /** When the last matching drive is readable but short of space, and every
      matching drive before it was readable, the scan ends with the
      "Not enough disk space" verdict. */
  lemma {:induction false} SpaceShortDenies(g: Gate, drives: seq<Drive>, root: string, target: string, k: nat)
    requires k < |drives| && Matches(drives[k], root)
    requires drives[k].freeSpace.Bytes? && drives[k].freeSpace.n <= FreeSpaceThreshold
    requires forall j | k < j < |drives| :: !Matches(drives[j], root)
    requires forall j | 0 <= j < k :: Matches(drives[j], root) ==> drives[j].freeSpace.Bytes?
    ensures SpaceScan(g, drives, root, target) == Gate(NotEnoughSpace(target), false)
    decreases k
  {
    var next := if !Matches(drives[0], root) then g
                else if Passes(drives[0]) then Gate(g.status, true)
                else Gate(NotEnoughSpace(target), false);
    if k == 0 {
      assert forall x | x in drives[1..] :: !Matches(x, root) by {
        forall x | x in drives[1..] ensures !Matches(x, root) {
          var j :| 0 <= j < |drives[1..]| && drives[1..][j] == x;
          assert drives[j + 1] == x;
        }
      }
    } else {
      assert SpaceScan(g, drives, root, target) == SpaceScan(next, drives[1..], root, target);
      SpaceShortDenies(next, drives[1..], root, target, k - 1);
    }
  }

  /** When the first matching drive's free space cannot be read, the scan stops
      there with the "Failed to get drive space" verdict. */
  lemma {:induction false} SpaceUnreadableStops(g: Gate, drives: seq<Drive>, root: string, target: string, k: nat)
    requires k < |drives| && Matches(drives[k], root) && drives[k].freeSpace.Unreadable?
    requires forall j | 0 <= j < k :: Matches(drives[j], root) ==> drives[j].freeSpace.Bytes?
    ensures SpaceScan(g, drives, root, target) == Gate(DriveSpaceFailed(drives[k].freeSpace.error), false)
    decreases k
  {
    if k > 0 {
      var next := if !Matches(drives[0], root) then g
                  else if Passes(drives[0]) then Gate(g.status, true)
                  else Gate(NotEnoughSpace(target), false);
      assert SpaceScan(g, drives, root, target) == SpaceScan(next, drives[1..], root, target);
      SpaceUnreadableStops(next, drives[1..], root, target, k - 1);
    }
  }

  /** The threshold is strict: a lone matching drive with exactly 16 GiB free
      fails, one more byte passes. */
  lemma ThresholdIsStrict(g: Gate, root: string, target: string)
    ensures SpaceScan(g, [Drive(root, true, Bytes(FreeSpaceThreshold))], root, target)
            == Gate(NotEnoughSpace(target), false)
    ensures SpaceScan(g, [Drive(root, true, Bytes(FreeSpaceThreshold + 1))], root, target)
            == Gate(g.status, true)
  {
  }

  /** A matching drive with enough space overrides a failed writability probe:
      the gate opens while the status still carries the writability error. */
  lemma SpaceOverridesWritability(target: string, e: Exception, root: string, drives: seq<Drive>, m: Markers)
    requires !AnyMarker(m)
    requires exists d | d in drives :: Matches(d, root)
    requires forall d | d in drives && Matches(d, root) :: Passes(d)
    ensures TargetCheck(target, Probe(Fail(e), Listed(root, drives), m)) == Gate(NotWritable(e), true)
  {
    SpacePassGrants(Gate(NotWritable(e), false), drives, root, target);
  }

  /** A writable target on a drive that is short of space is refused, with the
      space message replacing the writability one. */
  lemma ShortDriveOverridesWritable(target: string, root: string, drives: seq<Drive>, m: Markers, k: nat)
    requires !AnyMarker(m)
    requires k < |drives| && Matches(drives[k], root)
    requires drives[k].freeSpace.Bytes? && drives[k].freeSpace.n <= FreeSpaceThreshold
    requires forall j | k < j < |drives| :: !Matches(drives[j], root)
    requires forall j | 0 <= j < k :: Matches(drives[j], root) ==> drives[j].freeSpace.Bytes?
    ensures TargetCheck(target, Probe(Pass, Listed(root, drives), m)) == Gate(NotEnoughSpace(target), false)
  {
    SpaceShortDenies(Gate(AwaitingInstall, true), drives, root, target, k);
  }
}
