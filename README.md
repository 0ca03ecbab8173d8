# NewLinux kernel updater — a Dafny model

The NewLinux kernel updater is a small GTK program (`src/main.cpp`). It
detects the host's package manager, builds the upgrade command, runs it, and
reports progress through a status label, a progress bar and a log buffer.
This project models the part of that program that decides what happens:

- **Detection** (`detection.dfy`). The program probes for `pacman`, `apt` and
  `dnf` in that order and stops at the first executable it finds. The exit
  status of each probe is an input. `Detect` is tied to a reference
  first-success scan over the priority list.
- **Upgrade command** (`commands.dfy`). A non-empty custom kernel path always
  gives `cd <path> && sudo makepkg -i --noconfirm`. Otherwise each manager
  has its own command, ending in the selected package name. The choice is
  kept as a `Plan`, and `ParseCommand` reads the plan back from the command
  text.
- **Info label** (`info_label.dfy`). The label text is a header that names
  the selected kernel type, followed by that type's properties as
  `- <property>` lines. Properties exist only for `lts`, `zen` and
  `specific version`.
- **The update run** (`effects.dfy`, `updater.dfy`). `perform_update`,
  `execute_command`, `update_log`, `update_status` and `update_progress` are
  methods of a `KernelUpdater` class. The class's fields are the window
  state: the custom path, the info text, the status text, the progress and
  the log text. A ghost history of effects records every status, progress,
  log and spawn effect in order. `Valid()` ties the visible fields to views
  of that history. The run's effects are given as a function
  (`RunEffects`), and its ordering properties are proved as lemmas about
  that function. Progress is kept in tenths, so the checkpoints 0.1, 0.3,
  0.6 and 1.0 are 1, 3, 6 and 10.

The program's calls to `system()` are parameters: `HostResults` carries the
exit statuses of the three probes and of the upgrade command. A spawn effect
records each command handed to the host.

When no package manager is found, the run aborts before the custom path is
ever looked at. So a custom kernel path does not help on a host without
pacman, apt or dnf. The model follows the code here (`src/main.cpp:85-95`):
the abort is unconditional.

## Model

| member | source | states |
|---|---|---|
| Detection.Name | src/main.cpp:78-82 | the stored manager name is empty exactly when no manager was found |
| Detection.FirstSuccess | src/main.cpp:77-83 | reference scan: the index found holds a zero status and every earlier status is non-zero, or no status is zero |
| Detection.Detect | src/main.cpp:77-83 | pacman wins when its probe succeeds; apt only when pacman's failed; dnf only when both failed; no manager exactly when all three failed |
| Detection.DetectIsPriorityScan | src/main.cpp:77-83 | detection equals the first-success scan over the order pacman, apt, dnf |
| Detection.EarlierTakesPrecedence | src/main.cpp:77-83 | once an earlier probe succeeds, the later probes' statuses cannot change the result |
| Detection.ProbeCommandsDistinct | src/main.cpp:77-81 | the probe commands of different managers differ, so each probe names exactly one manager |
| Detection.ProbesRun | src/main.cpp:77-83 | the probes run are a prefix of the priority order whose length is one past the index the reference scan stops at (all three when none succeeds), whatever dnf's status; all three run exactly when pacman and apt both fail |
| Detection.LastProbeFindsManager | src/main.cpp:77-83 | when a manager is found, the last probe run is that manager's probe |
| Commands.SelectPlan | src/main.cpp:94-103 | a custom build exactly when the custom path is non-empty; no command exactly when there is neither a path nor a manager; a package upgrade always names a real manager |
| Commands.CommandText | src/main.cpp:94-103 | the text of a plan is empty exactly when there is nothing to run |
| Commands.UpgradeCommand | src/main.cpp:94-103 | the command is empty exactly when there is neither a custom path nor a manager, and starts with `cd <path>` whenever a custom path is set |
| Commands.ParseCommandText | src/main.cpp:94-103 | every command text parses back to the plan it came from, so the four command shapes cannot be confused |
| Commands.CommandDeterminesPlan | src/main.cpp:94-103 | two runs issue the same command only if they chose the same plan |
| Commands.CustomPathDominates | src/main.cpp:95-96 | with a custom path the command is the makepkg build in that directory, whatever the manager and package |
| Commands.ManagerCommands | src/main.cpp:97-103 | without a custom path, the exact pacman, apt and dnf commands, each ending in the selected package |
| InfoLabel.Properties | src/main.cpp:47-53 | a kernel type has properties exactly when it is lts, zen or specific version |
| InfoLabel.Bullets | src/main.cpp:47-53 | the bullet text is empty exactly when there are no properties |
| InfoLabel.InfoText | src/main.cpp:43-55 | the text always starts with the header naming the type, and has more than the header exactly for the three known types |
| Effects.CurrentStatus | src/main.cpp:66-68 | the status label shows "Ready" or a text some status update of the history set |
| Effects.CurrentProgress | src/main.cpp:62-64 | the progress bar shows 0 or a value some progress update of the history set |
| Effects.WindowAfterEffect | src/main.cpp:24-68 | one update changes only its own widget (CurrentStatus, CurrentProgress, LogText): a status sets the label (update_status, lines 66-68), a progress sets the bar (update_progress, lines 62-64), a log line and a newline go at the end of the buffer (update_log, lines 24-29), and a spawn changes none |
| Updater.Spawns | src/main.cpp:77-81 | one spawn per command handed to the host, in the same order |
| Updater.DetectionEffects | src/main.cpp:74-83 | first the detecting status and progress 0.1, then exactly the probes run, as spawns in priority order |
| Updater.AfterDetection | src/main.cpp:85-111 | the upgrade command is spawned after detection exactly when a manager was found |
| Updater.RunEffects | src/main.cpp:70-112 | a run starts with the detecting status at 0.1 and ends with the abort status or with progress at 1.0 |
| Updater.ExecuteLines | src/main.cpp:31-41 | the log text execute_command adds (ExecuteLog) is exactly what its two log lines render to |
| Updater.ExecuteLogsTwoLines | src/main.cpp:31-41 | execute_command's effects (ExecuteEffects) log exactly two lines, the command and then the success or error line chosen by the exit status (OutcomeLine); they spawn the command once and set no status and no progress |
| Updater.NoManagerAborts | src/main.cpp:74-89 | with no manager the statuses are detecting then the abort message, progress only reaches 0.1, nothing is logged and only the three probes run, whatever the custom path |
| Updater.ManagerFoundCompletes | src/main.cpp:74-111 | with a manager, the statuses are detecting, preparing, updating and complete, and progress goes 0.1, 0.3, 0.6, 1.0; the command and its outcome are logged; the upgrade command is spawned after the probes; completion does not depend on the exit status |
| Updater.ProgressNeverDecreases | src/main.cpp:74-111 | on every path the progress checkpoints never decrease and never exceed 1.0 |
| Updater.RunSetsWindow | src/main.cpp:70-112 | after a run on any history, the label shows the abort or the completion status, the bar shows 0.1 or 1.0, and the buffer has gained exactly the run's log lines |
| Updater.KernelUpdater.constructor | src/main.cpp:155-190 | the window starts with the placeholder info text (line 155), an empty bar (174), status "Ready" (177), an empty log buffer (186-190) and no custom path (the static string of line 10) |
| Updater.KernelUpdater.UpdateLog | src/main.cpp:24-29 | the message and a newline are appended to the log; nothing else changes, and the widgets stay consistent with the history |
| Updater.KernelUpdater.UpdateStatus | src/main.cpp:66-68 | the status label is set to the text, and the widgets stay consistent with the history |
| Updater.KernelUpdater.UpdateProgress | src/main.cpp:62-64 | the progress bar is set to the fraction, and the widgets stay consistent with the history |
| Updater.KernelUpdater.System | src/main.cpp:33 | system() hands the command to the host and returns the host's exit status; no widget changes |
| Updater.KernelUpdater.Checkpoint | src/main.cpp:74-75 | a status then a progress update, as at each checkpoint of perform_update, keeping the widgets consistent |
| Updater.KernelUpdater.ExecuteCommand | src/main.cpp:31-41 | the effects of execute_command are appended, the log gains the two lines, and the widgets stay consistent |
| Updater.KernelUpdater.DetectPackageManager | src/main.cpp:77-83 | the manager returned is the detected one and exactly the probes up to the first success are spawned |
| Updater.KernelUpdater.AnnounceDetection | src/main.cpp:74-83 | the detecting status and 0.1 are shown, then the detection chain runs |
| Updater.KernelUpdater.RunUpgrade | src/main.cpp:91-111 | preparing at 0.3, updating at 0.6, the command, then complete at 1.0; the log gains the command's two lines |
| Updater.KernelUpdater.PerformUpdate | src/main.cpp:70-112 | the run appends exactly the run's effects and keeps the widgets consistent with the history; the final status, progress and log are those of the abort or of the completed run |
| Updater.KernelUpdater.UpdateInfoLabel | src/main.cpp:43-60 | the info label shows the text for the chosen kernel type |
| Updater.KernelUpdater.SelectCustomKernel | src/main.cpp:127-129 | the chosen directory becomes the custom kernel path for later runs |

## Left out

- Message dialogs (`show_message`, `src/main.cpp:17-22`, called at lines 36, 39, 87 and 130). They are modal pop-ups that change no state the model tracks.
- Scrolling the log view to its end (`src/main.cpp:28`). It is a pure display effect.
- The folder chooser dialog itself (`src/main.cpp:120-135`). The model takes the directory it returns; cancelling leaves the path unchanged, so it needs no method.
- `system()` and the shell. Exit statuses are inputs (`HostResults`). What the commands do on the host is not modelled.
- The detached worker thread (`src/main.cpp:114-118`). The model runs `perform_update` as one sequential call. It does not model races between that thread and GTK's main loop, or two updates running at once.
- Progress fractions are doubles in the source. The model keeps them as whole tenths, which is exact for the four checkpoints used.
- A missing selection in the combo boxes. The version combo has no default entry (`src/main.cpp:158-161`), so the package name can be a null pointer; building a string from it is undefined behaviour. The model always takes a string.
- Window layout and widget creation in `main` (`src/main.cpp:137-197`). Only the initial widget contents are modelled, in the constructor.
- Updater.KernelUpdater.PerformUpdate: computing the command between the "Preparing update..." and "Updating kernel..." checkpoints has no observable effect, so the model builds it between the two phases.
- Updater.KernelUpdater.ExecuteCommand: the two outcome branches of lines 34-40 differ only in the line logged and the dialog shown; the model makes one log call whose line OutcomeLine chooses by the same test on the exit status.
- InfoLabel.InfoText: the property lines are stated as a list rendered one `- <property>` line at a time, not as the source's literal text blocks. The contract states the header and when properties are present, not their exact wording.
