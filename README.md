# SPV3 installer view-model in Dafny

This project models the view-model of the SPV3 installer (`src/Install.cs`, class `Install`). The installer lets the user pick a target folder and checks it. It also looks for Halo CE, through the registry or through Steam's MCC copy. Then it commits the installation: it activates Halo through the registry, runs the bulk install, creates shortcuts, offers the AmaiSosu add-on and switches to the Load panel. All of this is driven through a few mutable fields:

- the install gate `canInstall`;
- a single status line where the last write wins;
- the target folder and the Steam executable path;
- four panel visibilities (`main`, `mcc`, `hce`, `load`).

The model is a Dafny class, `SPV3.Install`, with those fields. Its methods update the fields step by step, as the C# setters and methods do. Each property setter is a method that does nothing when given the current value. Otherwise it stores the value and appends the property's name to `raised`, which stands in for the `PropertyChanged` event.

Every question the installer asks of the outside world is an argument. This covers the filesystem, drives, registry, regedit, shortcuts and helper programs:

- `PathChecks.Probe`: what the target folder's writability probe, the drive list and the conflict markers say.
- `SPV3.SteamWorld`: whether the Steam executable and the Halo1 dll exist, and what MCC's own search finds.
- `SPV3.CommitWorld`: what each step of `Commit` does, for example the regedit exit code and whether the bulk install throws.

Every action `Commit` takes on the outside world is returned, in order, as a sequence of `SPV3.Effect` values.

The target validation is also given as pure functions in `PathChecks`:

- `WriteVerdict`: the writability check.
- `SpaceScan` and `SpaceCheck`: the drive loop.
- `ConflictCheck`: the conflict-marker check.
- `TargetCheck`: all three composed.

The `Target` setter is proved to leave `Gate(status, canInstall) == TargetCheck(value, probe)`. The lemmas about these functions state how the three checks override each other.

Files:

- `env.dfy`: the outside world's values (visibility, exceptions, outcomes, drives, ASCII lower-casing).
- `path_checks.dfy`: the three target checks and their lemmas.
- `install.dfy`: the `Install` class and the `Commit` and Steam oracles.

## Behaviour as written

The model follows the code as written, including these behaviours, some of which may not be intended:

- The free-space check passes only when there are strictly more than 17179869184 bytes, so exactly 16 GiB fails. It is not an inclusive `>=`.
- A matching ready drive with enough space sets `CanInstall` to true even after the writability check failed. The writability error stays in the status line.
- When activation fails, `Commit` returns from inside its outer `try`, so `CanInstall` stays false. It is not restored to true.
- The panels are not kept mutually exclusive. `ViewMain`, `ViewMcc` and `ViewHce` never touch `Load`, and `Commit` never touches `Mcc`.
- When the Halo1 dll already exists where the Steam library puts it, the `SteamExePath` setter changes neither the gate nor the panels. Only a dll found by MCC's own search opens the gate and shows the main panel.
- When the writability probe fails after creating the folder, the folder is not removed. The model does not track the folder; it keeps only the probe's outcome.

## Model

| member | source | states |
|---|---|---|
| `SPV3.Install.constructor` | src/Install.cs:44-56 | The fields start at their initialisers: Main visible, the other panels collapsed, gate closed, compression on, the "Awaiting user input..." status. No setter runs, so nothing is raised and the default target is not validated. |
| `SPV3.Install.SetCanInstall` | src/Install.cs:58-67 | The gate takes the value. A notification is raised exactly when the value differs from the current one; otherwise nothing changes. |
| `SPV3.Install.SetCompress` | src/Install.cs:69-78 | Same no-op-on-equal contract for the compression flag. |
| `SPV3.Install.SetStatus` | src/Install.cs:80-89 | Same no-op-on-equal contract for the status line. |
| `SPV3.Install.SetSteamStatusText` | src/Install.cs:129-138 | Same no-op-on-equal contract for the Steam status line. |
| `SPV3.Install.SetMain` | src/Install.cs:219-228 | Same no-op-on-equal contract for the Main panel. |
| `SPV3.Install.SetMcc` | src/Install.cs:230-239 | Same no-op-on-equal contract for the MCC panel. |
| `SPV3.Install.SetHce` | src/Install.cs:241-250 | Same no-op-on-equal contract for the HCE panel. |
| `SPV3.Install.SetLoad` | src/Install.cs:252-261 | Same no-op-on-equal contract for the Load panel. |
| `SPV3.Install.SetTarget` | src/Install.cs:140-217 | The current value changes nothing and reruns no validation. A new value is stored, `Target` is the first notification raised, and the gate and status end equal to `TargetCheck` of the new value. |
| `SPV3.Install.CheckWritable` | src/Install.cs:153-174 | After the io.bin probe, the gate and status are the probe's verdict, whatever they were before. |
| `SPV3.Install.CheckDriveSpace` | src/Install.cs:176-203 | The drive loop leaves the gate and status equal to `SpaceCheck` of the verdict it started from. |
| `SPV3.Install.CheckFreeBytes` | src/Install.cs:186-196 | One matching drive's free bytes update the verdict as `FreeBytesVerdict` says. |
| `SPV3.Install.CheckConflicts` | src/Install.cs:205-215 | Any conflict marker refuses the folder; otherwise the verdict is untouched. |
| `PathChecks.WriteVerdict` | src/Install.cs:153-174 | The gate is open iff the probe succeeded. A success reads "Waiting for user to install SPV3." |
| `PathChecks.FreeBytesVerdict` | src/Install.cs:188-196 | The gate opens iff the free bytes exceed 17179869184. An open gate keeps the status it had. |
| `PathChecks.SpaceScan` | src/Install.cs:182-197 | With no ready drive named as the target's root, the earlier verdict stands. The status changes only on a matching drive that fails. The gate opens only on a matching drive that passes, and closes only on one that fails. |
| `PathChecks.SpaceCheck` | src/Install.cs:180-203 | A failing drive enumeration gives "Failed to get drive space". With no matching drive, the verdict stands. |
| `PathChecks.ConflictCheck` | src/Install.cs:205-215 | Any of the three markers (HCE executable, HXE executable, SPV3 loader) gives the conflicting-data status and a closed gate. With no marker, the verdict of the earlier checks is kept unchanged. |
| `PathChecks.TargetCheck` | src/Install.cs:149-215 | A conflict marker refuses the folder whatever the first two checks said. An open gate implies no marker, a readable drive list, and a writable folder or a matching drive with enough space. With no matching drive (a UNC path), the writability verdict stands. |
| `PathChecks.SpacePassGrants` | src/Install.cs:184-191 | When a drive matches and every matching drive has enough space, the scan opens the gate and leaves the status as it was. |
| `PathChecks.SpaceShortDenies` | src/Install.cs:184-197 | When the last matching drive is short of space, the scan ends with "Not enough disk space" and a closed gate. |
| `PathChecks.SpaceUnreadableStops` | src/Install.cs:184-203 | When the first matching drive's free space cannot be read, the scan ends with "Failed to get drive space" and a closed gate. |
| `PathChecks.ThresholdIsStrict` | src/Install.cs:188 | Exactly 16 GiB free fails; one byte more passes. |
| `PathChecks.SpaceOverridesWritability` | src/Install.cs:153-203 | A failed writability probe followed by a matching drive with enough space ends with the gate open and the writability error still in the status. |
| `PathChecks.ShortDriveOverridesWritable` | src/Install.cs:153-197 | A writable folder on a drive short of space is refused, and the space message replaces the writability one. |
| `SPV3.Install.SetSteamExePath` | src/Install.cs:91-127 | The current value changes nothing. A new value is stored and raised. A missing file changes nothing more. An existing file reports Steam located and derives the Halo1 path; a dll already there leaves the gate and panels alone. If MCC's search throws, its lower-cased message becomes the status and the setter stops. If the search finds the dll, the "Halo CEA Located" status is set, the gate opens, MCC collapses and Main shows. |
| `SPV3.Install.SetSteamStatus` | src/Install.cs:427-433 | The Steam status reads "Steam located!" iff the Steam executable exists. A notification is raised only if it changed. |
| `SPV3.Install.ViewMain` | src/Install.cs:442-447 | Main becomes visible and MCC and HCE collapsed. Load, status, gate and target are untouched. From that panel state it changes nothing, so a second call is a no-op. |
| `SPV3.Install.ViewMcc` | src/Install.cs:449-454 | MCC becomes visible and Main and HCE collapsed, with the same frame and idempotence. |
| `SPV3.Install.ViewHce` | src/Install.cs:435-440 | HCE becomes visible and Main and MCC collapsed, with the same frame and idempotence. |
| `SPV3.Install.Initialise` | src/Install.cs:265-298 | No manifest: "Could not find manifest in the data directory.", gate closed, Main shown. Manifest and a registry detection (not skipped): "Waiting for user to install SPV3.", gate open, Main shown. Manifest with detection failing or skipped: "Please install a legal copy of HCE", gate closed, HCE shown, Main and MCC collapsed. |
| `SPV3.ActivationError` | src/Install.cs:306-340 | Activation succeeds iff the Halo1 dll is absent, or the record is written and regedit exits with code 0. |
| `SPV3.ActivationRecord` | src/Install.cs:312-314 | The record written on activation carries version "1.10". Its install path is `Some(target)` iff no "Custom" record exists; otherwise it carries no path. |
| `SPV3.ActivationEffects` | src/Install.cs:310-331 | With the dll present, the "Custom" record version 1.10 is written. It carries the target as install path iff no "Custom" record exists yet. Once written it is always imported; with the dll absent nothing happens. |
| `SPV3.Install.Activate` | src/Install.cs:306-341 | Its effects are `ActivationEffects`. It reports success iff `ActivationError` is none. The status becomes "SPV3 successfully activated." or "Failed to Activate Halo: " followed by the exception's description. |
| `SPV3.Install.CreateShortcuts` | src/Install.cs:350-387 | A start-menu folder that cannot be created is reported as the escaping exception, and no shortcut is attempted. Otherwise both shortcuts are attempted in order, and each failure only writes "Shortcut error: ...". |
| `SPV3.Install.Finish` | src/Install.cs:393-418 | Whatever AmaiSosu did, the gate opens. With the loader in the target: the "successfully finished" status, Main and HCE collapsed, Load visible. Without it: the "load manually" status, panels unchanged. |
| `SPV3.Install.Commit` | src/Install.cs:300-425 | Activation failure: effects stop after the activation attempt, the "Failed to Activate Halo: " status, gate still closed, panels unchanged. Bulk install throws: its message, gate open, no shortcut, panels unchanged. Start-menu folder fails: likewise. Otherwise: bulk install, shortcuts, completion message and AmaiSosu in that order, gate open, then the Load panel or the "load manually" status. |
| `SPV3.Install.InstallHce` | src/Install.cs:456-466 | A setup that runs changes nothing. One that throws leaves its message as the status. |

## Left out

- HaloFixDLL/HaloFix.cpp is not part of this model. It patches process memory through foreign calls at fixed offsets and writes floating-point sensitivities.
- `InvokeSpv3` (src/Install.cs:468-476) starts a process and exits the installer; there is no state after it to describe.
- `_dbgPnl` is a debug-only visibility constant that nothing reads.
- The progress callback's percentage text (src/Install.cs:343-346) uses culture-dependent decimal formatting. Every path through `Commit` overwrites the status after the bulk install, so the final state does not depend on it. The notifications it raises are not in `raised`.
- `Commit` is `async void` and runs the bulk install on a worker thread (src/Install.cs:348). The model treats the whole of `Commit` as one atomic step; interleaving with other user actions is not modelled.
- The HXE library (`Installer.Install`, `Registry`, `Detection`, `SetSteam`, `MCC.Halo1.SetHalo1Path`, `AmaiSosu`, `Setup`, `Manifest`) is not part of this model. Only the results those calls return or throw are arguments, and only where the model lists them. The registry itself is not modelled, so whether a later import keeps an earlier install path is shown only through the record written.
- The model does not include exceptions from `Path.Combine`, `Registry.GameExists` or `Exists`, nor an exception thrown inside a `finally`.
- `SetSteam(value)` (src/Install.cs:102) is not modelled, and neither is an exception it throws. `SPV3.SteamWorld` carries only the Halo1 path it leads to. In C#, an exception there leaves `SteamExePath` stored and raised and skips the rest of the setter; the model has no such path.
- `Detection.InferFromRegistryKeyEntry()` (src/Install.cs:290) is given only as the boolean `registryDetects`. An exception it throws is not modelled. In C#, such an exception leaves `Initialise` with "Waiting for user to install SPV3." and the gate open.
- `Exception.ToString()` is modelled as the type name and message without the stack trace. `ToLower()` is modelled on ASCII letters only.
- `SPV3.Install.Initialise`: does not state which notifications it raises or in which order, only the final field values.
- `SPV3.Install.Commit`: does not state which notifications it raises, only the final field values and the effects.
- `SPV3.Install.ViewMain`: does not state which notifications it raises when the panels change.
- `SPV3.Install.ViewMcc`: does not state which notifications it raises when the panels change.
- `SPV3.Install.ViewHce`: does not state which notifications it raises when the panels change.
- `SPV3.Install.InstallHce`: does not state whether a failing setup raises a notification.
- `SPV3.Install.SetTarget`: states only that `Target` is the first notification raised, not the ones the checks raise after it.
- `SPV3.Install.SetSteamExePath`: states only that `SteamExePath` is the first notification raised when the file exists.
- `SPV3.Install.Activate`: does not state which notifications it raises.
- `SPV3.Install.CreateShortcuts`: does not state which notifications it raises.
- `SPV3.Install.Finish`: does not state which notifications it raises.
