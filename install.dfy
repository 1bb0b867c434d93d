/** The SPV3 installer's view-model: the install gate, the status line, the
    target directory, the Steam locator and four panel visibilities, all
    updated in place by property setters and by the workflow methods
    Initialise and Commit. Every question asked of the outside world arrives
    as an argument; every action taken on it is returned as an Effect. */
module SPV3 {
  import opened Env
  import opened PathChecks

  const InitialStatus := "Awaiting user input..."
  const InitialSteamStatus := "Find Steam.exe or its shortcut and we'll do the rest!"
  const SteamLocated := "Steam located!"
  const SteamMissing := "Find Steam.exe or a Steam shortcut and we'll do the rest!"
  const HaloLocated :=
    "Halo CEA Located.\r\nNote: You will need administrative permissions to activate Halo via MCC."
  const NoManifest := "Could not find manifest in the data directory."
  const HceRequired := "Please install a legal copy of HCE before installing SPV3."
  const Activated := "SPV3 successfully activated."
  const Finished :=
    "Installation of SPV3 has successfully finished! Enjoy SPV3, and join our Discord and Reddit communities!"
  const LoaderMissing := "SPV3 loader could not be found in the target directory. Please load manually."

  /** The registry game key the activation writes, and the version it records. */
  const CustomGame := "Custom"
  const CustomVersion := "1.10"

  /** What Commit throws when regedit exits with a non-zero code. */
  const ImportFailed := Exception("System.Exception", "Failed to import to Registry.")

  function ActivationFailed(e: Exception): string {
    "Failed to Activate Halo: " + e.Describe()
  }

  function ShortcutError(e: Exception): string {
    "Shortcut error: " + e.message
  }

  /** The bindable properties, as named in PropertyChanged notifications. */
  datatype Property =
    | CanInstall | Compress | Status | SteamExePath | SteamStatus | Target
    | MainPanel | MccPanel | HcePanel | LoadPanel

  /** The record Registry.WriteToFile is given. */
  datatype RegistryData = RegistryData(version: string, exePath: Option<string>)

  datatype ShortcutFolder = Desktop | StartMenu

  /** The actions Commit takes on the outside world, in the order it takes them. */
  datatype Effect =
    | WriteRegistryFile(game: string, data: RegistryData)
    | ImportRegistryFile                       // elevated `regedit /s Custom.reg`
    | BulkInstall(source: string, target: string, compress: bool)
    | CreateStartMenuFolder
    | CreateShortcut(folder: ShortcutFolder)   // SPV3.lnk pointing at the loader
    | ShowCompletionMessage
    | RunAmaiSosu(target: string)

  /** How the elevated regedit run ends: it fails to start, or it exits with a code. */
  datatype Regedit = StartFails(error: Exception) | Exited(code: int)

  /** What the outside world answers during one Commit. */
  datatype CommitWorld = CommitWorld(
    halo1DllExists: bool,       // File.Exists(Halo1Path)
    customRecordExists: bool,   // Registry.GameExists("Custom")
    writeRecord: Outcome,       // Registry.WriteToFile
    regedit: Regedit,
    bulkInstall: Outcome,       // Installer.Install, awaited
    startMenuExists: bool,      // the "Single Player Version 3" start-menu folder
    createStartMenu: Outcome,   // Directory.CreateDirectory of that folder
    desktopShortcut: Outcome,
    startMenuShortcut: Outcome,
    amaiSosu: Outcome,          // AmaiSosu.Execute
    loaderExists: bool)         // the SPV3 loader exists in the target afterwards

  /** The exception that aborts the activation step, if any. */
  function ActivationError(w: CommitWorld): (r: Option<Exception>)
    ensures r.None? <==> !w.halo1DllExists || (w.writeRecord.Pass? && w.regedit == Exited(0))
  {
    if !w.halo1DllExists then None
    else if w.writeRecord.Fail? then Some(w.writeRecord.error)
    else match w.regedit
      case StartFails(e) => Some(e)
      case Exited(code) => if code != 0 then Some(ImportFailed) else None
  }

  /** The record written on activation: an install path only when no "Custom"
      record exists yet. */
  function ActivationRecord(customRecordExists: bool, target: string): (r: RegistryData)
    ensures r.version == CustomVersion
    ensures r.exePath == Some(target) <==> !customRecordExists
    ensures r.exePath.None? <==> customRecordExists
  {
    RegistryData(CustomVersion, if customRecordExists then None else Some(target))
  }

  /** The effects of the activation step, including the ones that failed: the
      record is written, with the target as install path only when no "Custom"
      record exists yet, and once written it is always imported. */
  function ActivationEffects(w: CommitWorld, target: string): (r: seq<Effect>)
    ensures |r| > 0 <==> w.halo1DllExists
    ensures w.halo1DllExists ==>
      r[0].WriteRegistryFile? && r[0].game == CustomGame && r[0].data.version == CustomVersion &&
      (r[0].data.exePath == Some(target) <==> !w.customRecordExists) &&
      (r[0].data.exePath == None <==> w.customRecordExists)
    ensures |r| == 2 <==> w.halo1DllExists && w.writeRecord.Pass?
    ensures |r| == 2 ==> r[1] == ImportRegistryFile
  {
    if !w.halo1DllExists then []
    else [WriteRegistryFile(CustomGame, ActivationRecord(w.customRecordExists, target))]
         + (if w.writeRecord.Pass? then [ImportRegistryFile] else [])
  }

  /** The exception raised creating a missing start-menu folder, if any. */
  function StartMenuError(w: CommitWorld): Option<Exception> {
    if !w.startMenuExists && w.createStartMenu.Fail? then Some(w.createStartMenu.error) else None
  }

  /** The effects of the shortcuts block when the start-menu folder is there
      or could be created. */
  function ShortcutEffects(w: CommitWorld): seq<Effect> {
    (if w.startMenuExists then [] else [CreateStartMenuFolder])
    + [CreateShortcut(Desktop), CreateShortcut(StartMenu)]
  }

  /** Commit gets past activation, the bulk install and the start-menu folder. */
  predicate Completes(w: CommitWorld) {
    ActivationError(w).None? && w.bulkInstall.Pass? && StartMenuError(w).None?
  }

  /** What MCC.Halo1.SetHalo1Path does: it throws, or leaves Halo1Path at some
      path where the dll is or is not found. */
  datatype Halo1Search = Relocated(path: string, found: bool) | SearchFails(error: Exception)

  /** What the outside world answers when SteamExePath is set. */
  datatype SteamWorld = SteamWorld(
    steamExeExists: bool,       // File.Exists of the new value
    halo1Path: string,          // the Halo1 dll path derived from the Steam library
    halo1DllExists: bool,       // File.Exists of that path
    search: Halo1Search)

  class Install {
    const source: string        // the "data" directory beside the installer
    var skipDetect: bool        // debug switch that bypasses HCE detection
    var canInstall: bool
    var compress: bool
    var mcc: Visibility
    var hce: Visibility
    var load: Visibility
    var main: Visibility
    var status: string
    var target: string
    var steamExe: string
    var steamStatus: string
    var halo1Path: string       // HXE's shared Halo1Path
    var raised: seq<Property>   // PropertyChanged notifications, oldest first

    /** The field initialisers; none of them goes through a setter, so the
        default target is not validated and nothing is raised. */
    constructor (source: string, defaultTarget: string, defaultSteamExe: string, halo1Path: string)
      ensures this.source == source && !skipDetect && !canInstall && compress
      ensures main == Visible && mcc == Collapsed && hce == Collapsed && load == Collapsed
      ensures status == InitialStatus && target == defaultTarget
      ensures steamExe == defaultSteamExe && steamStatus == InitialSteamStatus
      ensures this.halo1Path == halo1Path && raised == []
    {
      this.source := source;
      skipDetect := false;
      canInstall := false;
      compress := true;
      mcc, hce, load, main := Collapsed, Collapsed, Collapsed, Visible;
      status := InitialStatus;
      target := defaultTarget;
      steamExe := defaultSteamExe;
      steamStatus := InitialSteamStatus;
      this.halo1Path := halo1Path;
      raised := [];
    }

    method SetCanInstall(value: bool)
      modifies this`canInstall, this`raised
      ensures canInstall == value
      ensures value == old(canInstall) ==> raised == old(raised)
      ensures value != old(canInstall) ==> raised == old(raised) + [CanInstall]
    {
      if value == canInstall { return; }
      canInstall := value;
      raised := raised + [CanInstall];
    }

    method SetCompress(value: bool)
      modifies this`compress, this`raised
      ensures compress == value
      ensures value == old(compress) ==> raised == old(raised)
      ensures value != old(compress) ==> raised == old(raised) + [Compress]
    {
      if value == compress { return; }
      compress := value;
      raised := raised + [Compress];
    }

    method SetStatus(value: string)
      modifies this`status, this`raised
      ensures status == value
      ensures value == old(status) ==> raised == old(raised)
      ensures value != old(status) ==> raised == old(raised) + [Status]
    {
      if value == status { return; }
      status := value;
      raised := raised + [Status];
    }

    method SetSteamStatusText(value: string)
      modifies this`steamStatus, this`raised
      ensures steamStatus == value
      ensures value == old(steamStatus) ==> raised == old(raised)
      ensures value != old(steamStatus) ==> raised == old(raised) + [SteamStatus]
    {
      if value == steamStatus { return; }
      steamStatus := value;
      raised := raised + [SteamStatus];
    }

    method SetMain(value: Visibility)
      modifies this`main, this`raised
      ensures main == value
      ensures value == old(main) ==> raised == old(raised)
      ensures value != old(main) ==> raised == old(raised) + [MainPanel]
    {
      if value == main { return; }
      main := value;
      raised := raised + [MainPanel];
    }

    method SetMcc(value: Visibility)
      modifies this`mcc, this`raised
      ensures mcc == value
      ensures value == old(mcc) ==> raised == old(raised)
      ensures value != old(mcc) ==> raised == old(raised) + [MccPanel]
    {
      if value == mcc { return; }
      mcc := value;
      raised := raised + [MccPanel];
    }

    method SetHce(value: Visibility)
      modifies this`hce, this`raised
      ensures hce == value
      ensures value == old(hce) ==> raised == old(raised)
      ensures value != old(hce) ==> raised == old(raised) + [HcePanel]
    {
      if value == hce { return; }
      hce := value;
      raised := raised + [HcePanel];
    }

    method SetLoad(value: Visibility)
      modifies this`load, this`raised
      ensures load == value
      ensures value == old(load) ==> raised == old(raised)
      ensures value != old(load) ==> raised == old(raised) + [LoadPanel]
    {
      if value == load { return; }
      load := value;
      raised := raised + [LoadPanel];
    }

    /** The verdict the three target checks write. */
    function Verdict(): Gate
      reads this
    {
      Gate(status, canInstall)
    }

    /** The Target setter: a new value is stored, announced, and validated by
        the writability, free-space and conflict checks in that order; the
        current value changes nothing and validates nothing. */
    method SetTarget(value: string, probe: Probe)
      modifies this`target, this`status, this`canInstall, this`raised
      ensures value == old(target) ==> unchanged(this)
      ensures value != old(target) ==>
        target == value && |raised| > |old(raised)| && raised[|old(raised)|] == Target
      ensures value != old(target) ==> Verdict() == TargetCheck(value, probe)
    {
      if value == target { return; }
      target := value;
      raised := raised + [Target];
      CheckWritable(probe.write);
      CheckDriveSpace(probe.drives);
      CheckConflicts(probe.markers);
    }

    /** First check: the io.bin probe in the target. */
    method CheckWritable(write: Outcome)
      modifies this`status, this`canInstall, this`raised
      ensures Verdict() == WriteVerdict(write)
      ensures old(raised) <= raised
    {
      match write {
        case Pass =>
          SetStatus(AwaitingInstall);
          SetCanInstall(true);
        case Fail(e) =>
          SetStatus(NotWritable(e));
          SetCanInstall(false);
      }
    }

    /** Second check: free space on the drive named as the target's root. */
    method CheckDriveSpace(drives: DriveList)
      modifies this`status, this`canInstall, this`raised
      ensures Verdict() == SpaceCheck(old(Verdict()), drives, target)
      ensures old(raised) <= raised
    {
      match drives {
        case ListFails(e) =>
          SetStatus(DriveSpaceFailed(e));
          SetCanInstall(false);
        case Listed(root, ds) =>
          var i := 0;
          while i < |ds|
            invariant 0 <= i <= |ds|
            invariant SpaceScan(Verdict(), ds[i..], root, target) == SpaceScan(old(Verdict()), ds, root, target)
            invariant old(raised) <= raised
          {
            var d := ds[i];
            assert ds[i..][0] == d && ds[i..][1..] == ds[i + 1..];
            if d.isReady && d.name == root {
              match d.freeSpace {
                case Unreadable(e) =>
                  SetStatus(DriveSpaceFailed(e));
                  SetCanInstall(false);
                  break;
                case Bytes(n) =>
                  CheckFreeBytes(n);
              }
            }
            i := i + 1;
          }
      }
    }

    /** The body of the drive loop for a matching drive whose free space reads. */
    method CheckFreeBytes(n: nat)
      modifies this`status, this`canInstall, this`raised
      ensures Verdict() == FreeBytesVerdict(old(Verdict()), n, target)
      ensures old(raised) <= raised
    {
      if n > FreeSpaceThreshold {
        SetCanInstall(true);
      } else {
        SetStatus(NotEnoughSpace(target));
        SetCanInstall(false);
      }
    }

    /** Third check: known problematic folders. */
    method CheckConflicts(m: Markers)
      modifies this`status, this`canInstall, this`raised
      ensures Verdict() == ConflictCheck(old(Verdict()), m)
      ensures old(raised) <= raised
    {
      if AnyMarker(m) {
        SetStatus(ConflictingData);
        SetCanInstall(false);
      }
    }

    /** The SteamExePath setter: a new value is stored and announced; when the
        file exists, the Steam status is refreshed and the Halo1 dll is looked
        for, first where the Steam library puts it, then by MCC's own search. */
    method SetSteamExePath(value: string, w: SteamWorld)
      modifies this`steamExe, this`steamStatus, this`halo1Path, this`status,
               this`canInstall, this`mcc, this`main, this`raised
      ensures value == old(steamExe) ==> unchanged(this)
      ensures value != old(steamExe) ==>
        steamExe == value && |raised| > |old(raised)| && raised[|old(raised)|] == SteamExePath
      // the file is not there: nothing else happens
      ensures value != old(steamExe) && !w.steamExeExists ==>
        raised == old(raised) + [SteamExePath] && steamStatus == old(steamStatus) &&
        halo1Path == old(halo1Path) && status == old(status) && canInstall == old(canInstall) &&
        mcc == old(mcc) && main == old(main)
      // the file is there: Steam is reported located
      ensures value != old(steamExe) && w.steamExeExists ==> steamStatus == SteamLocated
      // the dll is where the Steam library puts it: the gate and panels are left alone
      ensures value != old(steamExe) && w.steamExeExists && w.halo1DllExists ==>
        halo1Path == w.halo1Path && status == old(status) && canInstall == old(canInstall) &&
        mcc == old(mcc) && main == old(main)
      // MCC's search throws: its lower-cased message becomes the status
      ensures value != old(steamExe) && w.steamExeExists && !w.halo1DllExists && w.search.SearchFails? ==>
        halo1Path == w.halo1Path && status == Lower(w.search.error.message) &&
        canInstall == old(canInstall) && mcc == old(mcc) && main == old(main)
      // MCC's search finds the dll: the gate opens and the main panel replaces MCC's
      ensures value != old(steamExe) && w.steamExeExists && !w.halo1DllExists && w.search.Relocated? ==>
        halo1Path == w.search.path &&
        (w.search.found ==> status == HaloLocated && canInstall && mcc == Collapsed && main == Visible) &&
        (!w.search.found ==> status == old(status) && canInstall == old(canInstall) &&
                             mcc == old(mcc) && main == old(main))
    {
      if value == steamExe { return; }
      steamExe := value;
      raised := raised + [SteamExePath];

      if w.steamExeExists {
        SetSteamStatus(w.steamExeExists);
        halo1Path := w.halo1Path;
        if !w.halo1DllExists {
          match w.search {
            case SearchFails(e) =>
              SetStatus(Lower(e.message));
              return;
            case Relocated(path, found) =>
              halo1Path := path;
              if found {
                SetStatus(HaloLocated);
                SetCanInstall(true);
                SetMcc(Collapsed);
                SetMain(Visible);
              }
          }
        }
      }
    }

    /** Reports whether the Steam executable was found. */
    method SetSteamStatus(steamExeExists: bool)
      modifies this`steamStatus, this`raised
      ensures steamExeExists ==> steamStatus == SteamLocated
      ensures !steamExeExists ==> steamStatus == SteamMissing
      ensures steamStatus == old(steamStatus) ==> raised == old(raised)
      ensures steamStatus != old(steamStatus) ==> raised == old(raised) + [SteamStatus]
    {
      SetSteamStatusText(if steamExeExists then SteamLocated else SteamMissing);
    }

    /** Shows the main panel; Load, the status, the gate and the target are
        left alone. */
    method ViewMain()
      modifies this`main, this`mcc, this`hce, this`raised
      ensures main == Visible && mcc == Collapsed && hce == Collapsed
      // idempotent: from the panels it produces, it changes nothing
      ensures old(main) == Visible && old(mcc) == Collapsed && old(hce) == Collapsed ==> unchanged(this)
    {
      SetMain(Visible);
      SetMcc(Collapsed);
      SetHce(Collapsed);
    }

    /** Shows the MCC panel. */
    method ViewMcc()
      modifies this`main, this`mcc, this`hce, this`raised
      ensures main == Collapsed && mcc == Visible && hce == Collapsed
      ensures old(main) == Collapsed && old(mcc) == Visible && old(hce) == Collapsed ==> unchanged(this)
    {
      SetMain(Collapsed);
      SetMcc(Visible);
      SetHce(Collapsed);
    }

    /** Shows the HCE panel. */
    method ViewHce()
      modifies this`main, this`mcc, this`hce, this`raised
      ensures main == Collapsed && mcc == Collapsed && hce == Visible
      ensures old(main) == Collapsed && old(mcc) == Collapsed && old(hce) == Visible ==> unchanged(this)
    {
      SetMain(Collapsed);
      SetMcc(Collapsed);
      SetHce(Visible);
    }

    /** Resets to the main panel, then gates the install on the manifest and on
        the registry detection of Halo CE. */
    method Initialise(manifestExists: bool, registryDetects: bool)
      modifies this`main, this`mcc, this`hce, this`status, this`canInstall, this`raised
      ensures !manifestExists ==>
        status == NoManifest && !canInstall &&
        main == Visible && mcc == Collapsed && hce == Collapsed
      ensures manifestExists && !skipDetect && registryDetects ==>
        status == AwaitingInstall && canInstall &&
        main == Visible && mcc == Collapsed && hce == Collapsed
      ensures manifestExists && (skipDetect || !registryDetects) ==>
        status == HceRequired && !canInstall &&
        main == Collapsed && mcc == Collapsed && hce == Visible
    {
      SetMain(Visible);
      SetMcc(Collapsed);
      SetHce(Collapsed);

      if manifestExists {
        SetStatus(AwaitingInstall);
        SetCanInstall(true);
      } else {
        SetStatus(NoManifest);
        SetCanInstall(false);
        return;
      }

      if !skipDetect && registryDetects { return; }

      SetStatus(HceRequired);
      SetCanInstall(false);

      SetMain(Collapsed);
      SetMcc(Collapsed);
      SetHce(Visible);
    }

    /** Activation, bulk install, shortcuts, the AmaiSosu add-on, then the
        switch to the Load panel. The bulk install is one atomic step. */
    method Commit(w: CommitWorld) returns (effects: seq<Effect>)
      modifies this`canInstall, this`status, this`main, this`hce, this`load, this`raised
      // activation fails: Commit stops there with the gate still closed
      ensures ActivationError(w).Some? ==>
        effects == ActivationEffects(w, target) &&
        status == ActivationFailed(ActivationError(w).value) && !canInstall &&
        main == old(main) && hce == old(hce) && load == old(load)
      // the bulk install throws: its message, the gate reopened, no shortcut
      ensures ActivationError(w).None? && w.bulkInstall.Fail? ==>
        effects == ActivationEffects(w, target) + [BulkInstall(source, target, compress)] &&
        status == w.bulkInstall.error.message && canInstall &&
        main == old(main) && hce == old(hce) && load == old(load)
      // creating the start-menu folder throws: the same outer catch
      ensures ActivationError(w).None? && w.bulkInstall.Pass? && StartMenuError(w).Some? ==>
        effects == ActivationEffects(w, target) + [BulkInstall(source, target, compress), CreateStartMenuFolder] &&
        status == StartMenuError(w).value.message && canInstall &&
        main == old(main) && hce == old(hce) && load == old(load)
      // completion: the gate reopens whatever the shortcuts and AmaiSosu did
      ensures Completes(w) ==>
        effects == ActivationEffects(w, target) + [BulkInstall(source, target, compress)]
                   + ShortcutEffects(w) + [ShowCompletionMessage, RunAmaiSosu(target)] &&
        canInstall
      ensures Completes(w) && w.loaderExists ==>
        status == Finished && main == Collapsed && hce == Collapsed && load == Visible
      ensures Completes(w) && !w.loaderExists ==>
        status == LoaderMissing && main == old(main) && hce == old(hce) && load == old(load)
    {
      SetCanInstall(false);

      var activated;
      effects, activated := Activate(w);
      if !activated { return; }

      effects := effects + [BulkInstall(source, target, compress)];
      if w.bulkInstall.Fail? {
        SetStatus(w.bulkInstall.error.message);
        SetCanInstall(true);
        return;
      }

      var shortcuts, failure := CreateShortcuts(w);
      effects := effects + shortcuts;
      if failure.Some? {
        SetStatus(failure.value.message);
        SetCanInstall(true);
        return;
      }

      effects := effects + [ShowCompletionMessage, RunAmaiSosu(target)];
      Finish(w);
    }

    /** The activation block, taken only when the Halo1 dll exists: write the
        "Custom" record, have an elevated regedit import it, and report the
        outcome in the status line. */
    method Activate(w: CommitWorld) returns (effects: seq<Effect>, activated: bool)
      modifies this`status, this`raised
      ensures effects == ActivationEffects(w, target)
      ensures activated <==> ActivationError(w).None?
      ensures !w.halo1DllExists ==> status == old(status) && raised == old(raised)
      ensures w.halo1DllExists && activated ==> status == Activated
      ensures !activated ==> status == ActivationFailed(ActivationError(w).value)
    {
      effects, activated := [], true;
      if !w.halo1DllExists { return; }

      effects := [WriteRegistryFile(CustomGame, ActivationRecord(w.customRecordExists, target))];
      var failure: Option<Exception> := None;
      if w.writeRecord.Fail? {
        failure := Some(w.writeRecord.error);
      } else {
        effects := effects + [ImportRegistryFile];
        match w.regedit {
          case StartFails(e) => failure := Some(e);
          case Exited(code) => if code != 0 { failure := Some(ImportFailed); }
        }
      }
      if failure.Some? {
        SetStatus(ActivationFailed(failure.value));
        activated := false;
      } else {
        SetStatus(Activated);
      }
    }

    /** The shortcuts block: create the start-menu folder when it is missing
        (an exception there escapes to Commit), then a shortcut on the desktop
        and one in that folder, each failure only reported in the status. */
    method CreateShortcuts(w: CommitWorld) returns (effects: seq<Effect>, failure: Option<Exception>)
      modifies this`status, this`raised
      ensures failure == StartMenuError(w)
      ensures failure.Some? ==> effects == [CreateStartMenuFolder] && status == old(status)
      ensures failure.None? ==> effects == ShortcutEffects(w)
      ensures failure.None? && w.startMenuShortcut.Fail? ==>
        status == ShortcutError(w.startMenuShortcut.error)
      ensures failure.None? && w.startMenuShortcut.Pass? && w.desktopShortcut.Fail? ==>
        status == ShortcutError(w.desktopShortcut.error)
      ensures failure.None? && w.startMenuShortcut.Pass? && w.desktopShortcut.Pass? ==>
        status == old(status)
    {
      effects, failure := [], None;
      if !w.startMenuExists {
        effects := [CreateStartMenuFolder];
        if w.createStartMenu.Fail? {
          failure := Some(w.createStartMenu.error);
          return;
        }
      }
      effects := effects + [CreateShortcut(Desktop)];
      if w.desktopShortcut.Fail? {
        SetStatus(ShortcutError(w.desktopShortcut.error));
      }
      effects := effects + [CreateShortcut(StartMenu)];
      if w.startMenuShortcut.Fail? {
        SetStatus(ShortcutError(w.startMenuShortcut.error));
      }
    }

    /** The AmaiSosu add-on and the `finally` block after it: whatever the
        add-on did, the gate reopens, and the Load panel appears when the
        loader is in the target. */
    method Finish(w: CommitWorld)
      modifies this`status, this`canInstall, this`main, this`hce, this`load, this`raised
      ensures canInstall
      ensures w.loaderExists ==>
        status == Finished && main == Collapsed && hce == Collapsed && load == Visible
      ensures !w.loaderExists ==>
        status == LoaderMissing && main == old(main) && hce == old(hce) && load == old(load)
    {
      if w.amaiSosu.Fail? {
        SetStatus(w.amaiSosu.error.message);
      }

      SetStatus(Finished);
      SetCanInstall(true);
      if w.loaderExists {
        SetMain(Collapsed);
        SetHce(Collapsed);
        SetLoad(Visible);
      } else {
        SetStatus(LoaderMissing);
      }
    }

    /** Runs the Halo CE setup; an exception's message becomes the status. */
    method InstallHce(setup: Outcome)
      modifies this`status, this`raised
      ensures setup.Pass? ==> unchanged(this)
      ensures setup.Fail? ==> status == setup.error.message
    {
      if setup.Fail? {
        SetStatus(setup.error.message);
      }
    }
  }
}
