/** The kernel updater's window state and the update run (perform_update,
    execute_command, update_log and the label updates of src/main.cpp).
    The host's answers to system() are inputs: the exit statuses of the
    three probes and of the upgrade command. */
module Updater {
  import opened Effects
  import opened Detection
  import opened Commands
  import opened InfoLabel

  /** What system() returns on this host for each command the run may spawn. */
  datatype HostResults = HostResults(pacmanProbe: int, aptProbe: int, dnfProbe: int, upgradeStatus: int)

  const DetectingStatus := "Detecting package manager..."
  const NoManagerStatus := "No supported package manager found."
  const PreparingStatus := "Preparing update..."
  const UpdatingStatus := "Updating kernel..."
  const CompleteStatus := "Update complete."

  function DetectedManager(host: HostResults): Manager {
    Detect(host.pacmanProbe, host.aptProbe, host.dnfProbe)
  }

  /** The second log line of execute_command, chosen by the exit status. */
  function OutcomeLine(command: string, exitStatus: int): string {
    if exitStatus != 0 then "Error executing command: " + command
    else "Command executed successfully: " + command
  }

  /** One Spawn effect per command, in order. */
  function Spawns(commands: seq<string>): (es: seq<Effect>)
    ensures |es| == |commands|
    ensures forall i :: 0 <= i < |commands| ==> es[i] == Spawn(commands[i])
  {
    if commands == [] then [] else [Spawn(commands[0])] + Spawns(commands[1..])
  }

  /** Spawn effects reach the host and nothing in the window. */
  lemma {:induction false} OnlySpawns(commands: seq<string>, c: Channel)
    ensures Only(Spawns(commands), c) == if c == ProcessChannel then Spawns(commands) else []
  {
    if commands != [] {
      OnlySpawns(commands[1..], c);
      OnlyAppend([Spawn(commands[0])], Spawns(commands[1..]), c);
    }
  }

  /** The effects of execute_command. */
  function ExecuteEffects(command: string, exitStatus: int): seq<Effect> {
    [Log("Executing: " + command), Spawn(command), Log(OutcomeLine(command, exitStatus))]
  }

  /** execute_command's three steps, regrouped as one run of its effects
      and one addition to the log text. */
  lemma ExecuteSteps(es: seq<Effect>, text: string, command: string, exitStatus: int)
    ensures es + [Log("Executing: " + command)] + [Spawn(command)] + [Log(OutcomeLine(command, exitStatus))]
      == es + ExecuteEffects(command, exitStatus)
    ensures text + ("Executing: " + command + "\n") + (OutcomeLine(command, exitStatus) + "\n")
      == text + ExecuteLog(command, exitStatus)
  {
  }

  /** The steps of the detection phase, regrouped as its effects. */
  lemma DetectionSteps(es: seq<Effect>, host: HostResults)
    ensures es + [Status(DetectingStatus), Progress(1)] + Spawns(ProbesRun(host.pacmanProbe, host.aptProbe))
      == es + DetectionEffects(host)
  {
  }

  /** The steps of the upgrade phase, regrouped as its effects. */
  lemma UpgradeSteps(es: seq<Effect>, command: string, exitStatus: int)
    ensures es + [Status(PreparingStatus), Progress(3)] + [Status(UpdatingStatus), Progress(6)]
         + ExecuteEffects(command, exitStatus) + [Status(CompleteStatus), Progress(10)]
      == es + (AroundCommand + ExecuteEffects(command, exitStatus) + AfterCommand)
  {
  }

  /** The text execute_command adds to the log buffer. */
  function ExecuteLog(command: string, exitStatus: int): string {
    ("Executing: " + command + "\n") + (OutcomeLine(command, exitStatus) + "\n")
  }

  const BeforeProbes: seq<Effect> := [Status(DetectingStatus), Progress(1)]
  const AroundCommand: seq<Effect> := [Status(PreparingStatus), Progress(3), Status(UpdatingStatus), Progress(6)]
  const AfterCommand: seq<Effect> := [Status(CompleteStatus), Progress(10)]

  /** The effects of the part of a run that follows detection: the upgrade
      command is spawned exactly when a manager was found. */
  function AfterDetection(customPath: string, version: string, host: HostResults): (es: seq<Effect>)
    ensures Spawn(UpgradeCommand(customPath, DetectedManager(host), version)) in es
            <==> DetectedManager(host) != NoManager
  {
    var manager := DetectedManager(host);
    if manager == NoManager then [Status(NoManagerStatus)]
    else AroundCommand
         + ExecuteEffects(UpgradeCommand(customPath, manager, version), host.upgradeStatus)
         + AfterCommand
  }

  /** The effects of one update run, in order: the detecting checkpoint, the
      probes, and then either the abort or the remaining checkpoints around
      the upgrade command. A run starts at the detecting checkpoint and ends
      with the abort status or at full progress. */
  function RunEffects(customPath: string, version: string, host: HostResults): (es: seq<Effect>)
    ensures |es| >= 3 && es[0] == Status(DetectingStatus) && es[1] == Progress(1)
    ensures es[|es| - 1] == if DetectedManager(host) == NoManager then Status(NoManagerStatus) else Progress(10)
  {
    DetectionEffects(host) + AfterDetection(customPath, version, host)
  }

  /** The effects up to the end of detection: the detecting checkpoint and
      then the probes, in priority order. */
  function DetectionEffects(host: HostResults): (es: seq<Effect>)
    ensures |es| == |BeforeProbes| + |ProbesRun(host.pacmanProbe, host.aptProbe)|
    ensures es[..|BeforeProbes|] == BeforeProbes == [Status(DetectingStatus), Progress(1)]
    ensures forall i :: |BeforeProbes| <= i < |es| ==> es[i] == Spawn(ProbeCommand(Priority[i - |BeforeProbes|]))
  {
    BeforeProbes + Spawns(ProbesRun(host.pacmanProbe, host.aptProbe))
  }

  /** execute_command logs exactly two lines, the command and then its
      outcome, hands the command to the host once, and leaves the status
      label and the progress bar alone. */
  lemma ExecuteLogsTwoLines(command: string, exitStatus: int)
    ensures Only(ExecuteEffects(command, exitStatus), LogChannel)
      == [Log("Executing: " + command),
          Log(if exitStatus == 0 then "Command executed successfully: " + command
              else "Error executing command: " + command)]
    ensures Only(ExecuteEffects(command, exitStatus), ProcessChannel) == [Spawn(command)]
    ensures Only(ExecuteEffects(command, exitStatus), StatusChannel) == []
    ensures Only(ExecuteEffects(command, exitStatus), ProgressChannel) == []
  {
    var first := Log("Executing: " + command);
    var line := Log(OutcomeLine(command, exitStatus));
    OnlyThree(first, Spawn(command), line, LogChannel);
    OnlyThree(first, Spawn(command), line, ProcessChannel);
    OnlyThree(first, Spawn(command), line, StatusChannel);
    OnlyThree(first, Spawn(command), line, ProgressChannel);
  }

  /** What channel `c` sees of the effects up to the end of detection. */
  function DetectionView(probes: seq<string>, c: Channel): seq<Effect> {
    match c
    case StatusChannel => [Status(DetectingStatus)]
    case ProgressChannel => [Progress(1)]
    case LogChannel => []
    case ProcessChannel => Spawns(probes)
  }

  /** What channel `c` sees of the effects after a manager was found. */
  function UpgradeView(command: string, exitStatus: int, c: Channel): seq<Effect> {
    match c
    case StatusChannel => [Status(PreparingStatus), Status(UpdatingStatus), Status(CompleteStatus)]
    case ProgressChannel => [Progress(3), Progress(6), Progress(10)]
    case LogChannel => [Log("Executing: " + command), Log(OutcomeLine(command, exitStatus))]
    case ProcessChannel => [Spawn(command)]
  }

  lemma DetectionProjection(probes: seq<string>, c: Channel)
    ensures Only(BeforeProbes + Spawns(probes), c) == DetectionView(probes, c)
  {
    OnlyAppend(BeforeProbes, Spawns(probes), c);
    OnlyTwo(Status(DetectingStatus), Progress(1), c);
    OnlySpawns(probes, c);
    match c
    case StatusChannel =>
      assert Only(BeforeProbes + Spawns(probes), c) == [Status(DetectingStatus)] + [];
    case ProgressChannel =>
      assert Only(BeforeProbes + Spawns(probes), c) == [Progress(1)] + [];
    case LogChannel =>
    case ProcessChannel =>
      assert Only(BeforeProbes + Spawns(probes), c) == [] + Spawns(probes);
  }

  /** The upgrade part of a run, projected effect by effect. */
  lemma UpgradeParts(command: string, exitStatus: int, c: Channel)
    ensures Only(AroundCommand + ExecuteEffects(command, exitStatus) + AfterCommand, c)
      == ((Keep(Status(PreparingStatus), c) + Keep(Progress(3), c))
          + (Keep(Status(UpdatingStatus), c) + Keep(Progress(6), c)))
         + (Keep(Log("Executing: " + command), c)
            + (Keep(Spawn(command), c) + Keep(Log(OutcomeLine(command, exitStatus)), c)))
         + (Keep(Status(CompleteStatus), c) + Keep(Progress(10), c))
  {
    var exec := ExecuteEffects(command, exitStatus);
    OnlyAppend(AroundCommand + exec, AfterCommand, c);
    OnlyAppend(AroundCommand, exec, c);
    OnlyFour(Status(PreparingStatus), Progress(3), Status(UpdatingStatus), Progress(6), c);
    OnlyThree(Log("Executing: " + command), Spawn(command), Log(OutcomeLine(command, exitStatus)), c);
    OnlyTwo(Status(CompleteStatus), Progress(10), c);
  }

  lemma UpgradeProjection(command: string, exitStatus: int, c: Channel)
    ensures Only(AroundCommand + ExecuteEffects(command, exitStatus) + AfterCommand, c)
      == UpgradeView(command, exitStatus, c)
  {
    var exec := ExecuteEffects(command, exitStatus);
    UpgradeParts(command, exitStatus, c);
    match c
    case StatusChannel =>
      assert Only(AroundCommand + exec + AfterCommand, c)
        == [Status(PreparingStatus), Status(UpdatingStatus)] + [] + [Status(CompleteStatus)];
    case ProgressChannel =>
      assert Only(AroundCommand + exec + AfterCommand, c)
        == [Progress(3), Progress(6)] + [] + [Progress(10)];
    case LogChannel =>
      assert Only(AroundCommand + exec + AfterCommand, c)
        == [] + [Log("Executing: " + command), Log(OutcomeLine(command, exitStatus))] + [];
    case ProcessChannel =>
      assert Only(AroundCommand + exec + AfterCommand, c) == [] + [Spawn(command)] + [];
  }

  /** What channel `c` sees of a whole run: detection, then the abort status
      or the rest of the update. */
  lemma RunProjection(customPath: string, version: string, host: HostResults, c: Channel)
    ensures Only(RunEffects(customPath, version, host), c)
      == DetectionView(ProbesRun(host.pacmanProbe, host.aptProbe), c)
         + if DetectedManager(host) == NoManager then Keep(Status(NoManagerStatus), c)
           else UpgradeView(UpgradeCommand(customPath, DetectedManager(host), version), host.upgradeStatus, c)
  {
    var probes := ProbesRun(host.pacmanProbe, host.aptProbe);
    OnlyAppend(DetectionEffects(host), AfterDetection(customPath, version, host), c);
    DetectionProjection(probes, c);
    if DetectedManager(host) == NoManager {
      OnlyCons(Status(NoManagerStatus), [], c);
      assert [Status(NoManagerStatus)] + [] == [Status(NoManagerStatus)];
    } else {
      UpgradeProjection(UpgradeCommand(customPath, DetectedManager(host), version), host.upgradeStatus, c);
    }
  }

  /** Without a package manager the run stops after the abort status: the
      only checkpoint is 0.1, nothing is logged and only the three probes run,
      whatever the custom kernel path, so no custom build is attempted. */
  lemma NoManagerAborts(customPath: string, version: string, host: HostResults)
    requires DetectedManager(host) == NoManager
    ensures Only(RunEffects(customPath, version, host), StatusChannel)
      == [Status(DetectingStatus), Status(NoManagerStatus)]
    ensures Only(RunEffects(customPath, version, host), ProgressChannel) == [Progress(1)]
    ensures Only(RunEffects(customPath, version, host), LogChannel) == []
    ensures Only(RunEffects(customPath, version, host), ProcessChannel)
      == Spawns([ProbeCommand(Pacman), ProbeCommand(Apt), ProbeCommand(Dnf)])
  {
    RunProjection(customPath, version, host, StatusChannel);
    RunProjection(customPath, version, host, ProgressChannel);
    RunProjection(customPath, version, host, LogChannel);
    RunProjection(customPath, version, host, ProcessChannel);
    assert Only(RunEffects(customPath, version, host), ProcessChannel)
      == Spawns([ProbeCommand(Pacman), ProbeCommand(Apt), ProbeCommand(Dnf)]) + [];
  }

  /** A run that finds a manager passes the four statuses and the four
      checkpoints in order, logs the command and its outcome, and spawns the
      probes it needed and then the upgrade command. Only the outcome line
      depends on the command's exit status; "Update complete." is reached
      either way. */
  lemma ManagerFoundCompletes(customPath: string, version: string, host: HostResults)
    requires DetectedManager(host) != NoManager
    ensures Only(RunEffects(customPath, version, host), StatusChannel)
      == [Status(DetectingStatus), Status(PreparingStatus), Status(UpdatingStatus), Status(CompleteStatus)]
    ensures Only(RunEffects(customPath, version, host), ProgressChannel)
      == [Progress(1), Progress(3), Progress(6), Progress(10)]
    ensures var command := UpgradeCommand(customPath, DetectedManager(host), version);
            Only(RunEffects(customPath, version, host), LogChannel)
              == [Log("Executing: " + command), Log(OutcomeLine(command, host.upgradeStatus))]
    ensures Only(RunEffects(customPath, version, host), ProcessChannel)
      == Spawns(ProbesRun(host.pacmanProbe, host.aptProbe))
         + [Spawn(UpgradeCommand(customPath, DetectedManager(host), version))]
  {
    RunProjection(customPath, version, host, StatusChannel);
    RunProjection(customPath, version, host, ProgressChannel);
    RunProjection(customPath, version, host, LogChannel);
    RunProjection(customPath, version, host, ProcessChannel);
  }

  lemma CheckpointListsIncrease()
    ensures NonDecreasing([Progress(1)])
    ensures NonDecreasing([Progress(1), Progress(3), Progress(6), Progress(10)])
  {
  }

  /** The progress facts of any history whose bar passes through the
      checkpoints of an aborted or of a completed run. */
  lemma CheckpointsIncrease(es: seq<Effect>)
    requires Only(es, ProgressChannel) == [Progress(1)]
          || Only(es, ProgressChannel) == [Progress(1), Progress(3), Progress(6), Progress(10)]
    ensures NonDecreasing(Only(es, ProgressChannel))
    ensures forall e :: e in es && e.Progress? ==> e.tenths <= 10
  {
    CheckpointListsIncrease();
    forall e | e in es && e.Progress? ensures e.tenths <= 10 {
      InOnly(es, ProgressChannel, e);
    }
  }

  /** On every path the progress bar only moves forward and never passes 1.0. */
  lemma ProgressNeverDecreases(customPath: string, version: string, host: HostResults)
    ensures NonDecreasing(Only(RunEffects(customPath, version, host), ProgressChannel))
    ensures forall e :: e in RunEffects(customPath, version, host) && e.Progress? ==> e.tenths <= 10
  {
    var es := RunEffects(customPath, version, host);
    RunProjection(customPath, version, host, ProgressChannel);
    if DetectedManager(host) == NoManager {
      assert Only(es, ProgressChannel) == [Progress(1)] + [];
    } else {
      assert Only(es, ProgressChannel) == [Progress(1)] + [Progress(3), Progress(6), Progress(10)];
    }
    CheckpointsIncrease(es);
  }

  /** The log text a run adds: nothing when it aborts, else the two lines
      of execute_command. */
  function RunLog(customPath: string, version: string, host: HostResults): string {
    var manager := DetectedManager(host);
    if manager == NoManager then ""
    else ExecuteLog(UpgradeCommand(customPath, manager, version), host.upgradeStatus)
  }

  /** The phases of a run, regrouped as its effects after any history. */
  lemma RunSteps(es: seq<Effect>, customPath: string, version: string, host: HostResults)
    ensures DetectedManager(host) == NoManager ==>
              es + DetectionEffects(host) + [Status(NoManagerStatus)] == es + RunEffects(customPath, version, host)
    ensures DetectedManager(host) != NoManager ==>
              var command := UpgradeCommand(customPath, DetectedManager(host), version);
              es + DetectionEffects(host) + (AroundCommand + ExecuteEffects(command, host.upgradeStatus) + AfterCommand)
                == es + RunEffects(customPath, version, host)
  {
  }

  /** The log text of execute_command's two lines. */
  lemma ExecuteLines(command: string, exitStatus: int)
    ensures Lines([Log("Executing: " + command), Log(OutcomeLine(command, exitStatus))])
      == ExecuteLog(command, exitStatus)
  {
    var logged := [Log("Executing: " + command), Log(OutcomeLine(command, exitStatus))];
    assert logged[1..] == [logged[1]] && logged[1..][1..] == [];
    assert Lines(logged[1..]) == (OutcomeLine(command, exitStatus) + "\n") + Lines([]);
    assert Lines(logged) == ("Executing: " + command + "\n") + Lines(logged[1..]);
  }

  lemma StatusAfterRun(es: seq<Effect>, customPath: string, version: string, host: HostResults)
    ensures CurrentStatus(es + RunEffects(customPath, version, host))
      == if DetectedManager(host) == NoManager then NoManagerStatus else CompleteStatus
  {
    OnlyAppend(es, RunEffects(customPath, version, host), StatusChannel);
    RunProjection(customPath, version, host, StatusChannel);
  }

  lemma ProgressAfterRun(es: seq<Effect>, customPath: string, version: string, host: HostResults)
    ensures CurrentProgress(es + RunEffects(customPath, version, host))
      == if DetectedManager(host) == NoManager then 1 else 10
  {
    OnlyAppend(es, RunEffects(customPath, version, host), ProgressChannel);
    RunProjection(customPath, version, host, ProgressChannel);
  }

  lemma LogAfterRun(es: seq<Effect>, customPath: string, version: string, host: HostResults)
    ensures LogText(es + RunEffects(customPath, version, host))
      == LogText(es) + RunLog(customPath, version, host)
  {
    var run := RunEffects(customPath, version, host);
    var logged := Only(run, LogChannel);
    OnlyAppend(es, run, LogChannel);
    LinesAppend(Only(es, LogChannel), logged);
    RunProjection(customPath, version, host, LogChannel);
    if DetectedManager(host) == NoManager {
      assert logged == [];
    } else {
      var command := UpgradeCommand(customPath, DetectedManager(host), version);
      assert logged == [Log("Executing: " + command), Log(OutcomeLine(command, host.upgradeStatus))];
      ExecuteLines(command, host.upgradeStatus);
    }
  }

  /** After a run, whatever came before it, the status label shows the run's
      last status, the bar its last checkpoint, and the log buffer has gained
      exactly the run's log lines at its end. */
  lemma RunSetsWindow(es: seq<Effect>, customPath: string, version: string, host: HostResults)
    ensures CurrentStatus(es + RunEffects(customPath, version, host))
      == if DetectedManager(host) == NoManager then NoManagerStatus else CompleteStatus
    ensures CurrentProgress(es + RunEffects(customPath, version, host))
      == if DetectedManager(host) == NoManager then 1 else 10
    ensures LogText(es + RunEffects(customPath, version, host))
      == LogText(es) + RunLog(customPath, version, host)
  {
    StatusAfterRun(es, customPath, version, host);
    ProgressAfterRun(es, customPath, version, host);
    LogAfterRun(es, customPath, version, host);
  }

  /** The window: the custom kernel path chosen in the file dialog, the info,
      status and progress widgets and the log buffer. `effects` records every
      observable effect so far; the widgets show what it implies. */
  class KernelUpdater {
    var customKernelPath: string
    var infoText: string
    var status: string
    var progress: nat
    var log: string
    ghost var effects: seq<Effect>

    ghost predicate Valid()
      reads this
    {
      status == CurrentStatus(effects)
      && progress == CurrentProgress(effects)
      && log == LogText(effects)
    }

    constructor ()
      ensures Valid() && effects == []
      ensures customKernelPath == "" && infoText == Placeholder
      ensures status == "Ready" && progress == 0 && log == ""
    {
      customKernelPath := "";
      infoText := Placeholder;
      status := InitialStatus;
      progress := InitialProgress;
      log := "";
      effects := [];
    }

    /** update_log: the message and a newline go at the end of the buffer. */
    method UpdateLog(message: string)
      modifies this`log, this`effects
      ensures log == old(log) + (message + "\n")
      ensures effects == old(effects) + [Log(message)]
      ensures old(Valid()) ==> Valid()
    {
      WindowAfterEffect(effects, Log(message));
      log := log + (message + "\n");
      effects := effects + [Log(message)];
    }

    /** update_status. */
    method UpdateStatus(text: string)
      modifies this`status, this`effects
      ensures status == text
      ensures effects == old(effects) + [Status(text)]
      ensures old(Valid()) ==> Valid()
    {
      WindowAfterEffect(effects, Status(text));
      status := text;
      effects := effects + [Status(text)];
    }

    /** update_progress, with the fraction in tenths. */
    method UpdateProgress(tenths: nat)
      modifies this`progress, this`effects
      ensures progress == tenths
      ensures effects == old(effects) + [Progress(tenths)]
      ensures old(Valid()) ==> Valid()
    {
      WindowAfterEffect(effects, Progress(tenths));
      progress := tenths;
      effects := effects + [Progress(tenths)];
    }

    /** system(command): the host runs the command and answers `exitStatus`. */
    method System(command: string, exitStatus: int) returns (result: int)
      modifies this`effects
      ensures result == exitStatus
      ensures effects == old(effects) + [Spawn(command)]
      ensures old(Valid()) ==> Valid()
    {
      WindowAfterEffect(effects, Spawn(command));
      effects := effects + [Spawn(command)];
      result := exitStatus;
    }

    /** execute_command: log the command, run it, log its outcome. */
    method ExecuteCommand(command: string, exitStatus: int)
      modifies this`log, this`effects
      ensures effects == old(effects) + ExecuteEffects(command, exitStatus)
      ensures log == old(log) + ExecuteLog(command, exitStatus)
      ensures old(Valid()) ==> Valid()
    {
      ExecuteSteps(effects, log, command, exitStatus);
      UpdateLog("Executing: " + command);
      var result := System(command, exitStatus);
      UpdateLog(OutcomeLine(command, result));
    }

    /** The detection chain: probe pacman, then apt, then dnf, stopping at
        the first probe that succeeds. */
    method DetectPackageManager(host: HostResults) returns (manager: Manager)
      modifies this`effects
      ensures manager == DetectedManager(host)
      ensures effects == old(effects) + Spawns(ProbesRun(host.pacmanProbe, host.aptProbe))
      ensures old(Valid()) ==> Valid()
    {
      manager := NoManager;
      var probe := System(ProbeCommand(Pacman), host.pacmanProbe);
      if probe == 0 {
        manager := Pacman;
      } else {
        probe := System(ProbeCommand(Apt), host.aptProbe);
        if probe == 0 {
          manager := Apt;
        } else {
          probe := System(ProbeCommand(Dnf), host.dnfProbe);
          if probe == 0 {
            manager := Dnf;
          }
        }
      }
      ghost var probes := ProbesRun(host.pacmanProbe, host.aptProbe);
      assert Spawns(probes) == [Spawn(probes[0])] + Spawns(probes[1..]);
      if host.pacmanProbe != 0 {
        assert Spawns(probes[1..]) == [Spawn(probes[1])] + Spawns(probes[2..]);
        if host.aptProbe != 0 {
          assert probes[2..][1..] == [];
        }
      }
    }

    /** A checkpoint of perform_update: set the status label, then the
        progress bar. */
    method Checkpoint(text: string, tenths: nat)
      modifies this`status, this`progress, this`effects
      ensures status == text && progress == tenths
      ensures effects == old(effects) + [Status(text), Progress(tenths)]
      ensures old(Valid()) ==> Valid()
    {
      UpdateStatus(text);
      UpdateProgress(tenths);
    }

    /** The first part of perform_update: announce detection at 0.1, then
        run the detection chain. */
    method AnnounceDetection(host: HostResults) returns (manager: Manager)
      modifies this`status, this`progress, this`effects
      ensures manager == DetectedManager(host)
      ensures effects == old(effects) + DetectionEffects(host)
      ensures status == DetectingStatus && progress == 1
      ensures old(Valid()) ==> Valid()
    {
      DetectionSteps(effects, host);
      Checkpoint(DetectingStatus, 1);
      manager := DetectPackageManager(host);
    }

    /** The rest of perform_update once a manager is known: the preparing
        and updating checkpoints, the command, and completion at 1.0. */
    method RunUpgrade(command: string, exitStatus: int)
      modifies this`status, this`progress, this`log, this`effects
      ensures effects == old(effects) + (AroundCommand + ExecuteEffects(command, exitStatus) + AfterCommand)
      ensures status == CompleteStatus && progress == 10
      ensures log == old(log) + ExecuteLog(command, exitStatus)
      ensures old(Valid()) ==> Valid()
    {
      UpgradeSteps(effects, command, exitStatus);
      Checkpoint(PreparingStatus, 3);
      Checkpoint(UpdatingStatus, 6);
      ExecuteCommand(command, exitStatus);
      Checkpoint(CompleteStatus, 10);
    }

    /** perform_update: report detection, detect the manager and abort if
        there is none; otherwise build the command and run it between the
        remaining status and progress checkpoints. */
    method PerformUpdate(version: string, host: HostResults)
      requires Valid()
      modifies this`status, this`progress, this`log, this`effects
      ensures Valid()
      ensures effects == old(effects) + RunEffects(customKernelPath, version, host)
      ensures status == if DetectedManager(host) == NoManager then NoManagerStatus else CompleteStatus
      ensures progress == if DetectedManager(host) == NoManager then 1 else 10
      ensures log == old(log) + RunLog(customKernelPath, version, host)
    {
      RunSteps(effects, customKernelPath, version, host);
      var manager := AnnounceDetection(host);
      if manager == NoManager {
        UpdateStatus(NoManagerStatus);
        return;
      }
      var command := UpgradeCommand(customKernelPath, manager, version);
      RunUpgrade(command, host.upgradeStatus);
    }

    /** update_info_label: the info label shows the text for the kernel type
        chosen in the combo box. */
    method UpdateInfoLabel(kernelType: string)
      modifies this`infoText
      ensures old(Valid()) ==> Valid()
      ensures infoText == InfoText(kernelType)
    {
      infoText := InfoText(kernelType);
    }

    /** The file dialog answered "Select" with `filename`: it becomes the
        custom kernel path for every later run. */
    method SelectCustomKernel(filename: string)
      modifies this`customKernelPath
      ensures old(Valid()) ==> Valid()
      ensures customKernelPath == filename
    {
      customKernelPath := filename;
    }
  }
}
