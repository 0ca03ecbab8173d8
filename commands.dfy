/** Upgrade-command construction (src/main.cpp:94-103). A non-empty custom
    kernel path always wins; otherwise the detected manager picks one of
    three package-manager commands, each ending in the selected package
    name. The choice is kept as a Plan, and the command string is the
    plan's text; ParseCommand reads the plan back from the text. */
module Commands {
  import opened Detection

  const MakepkgSuffix := " && sudo makepkg -i --noconfirm"
  const PacmanPrefix := "sudo pacman -Syu "
  const AptPrefix := "sudo apt update && sudo apt upgrade "
  const DnfPrefix := "sudo dnf upgrade "

  datatype Option<T> = None | Some(value: T)

  /** What the update will run: a local build in a directory, an upgrade of a
      package through a manager, or nothing (the command stays empty). */
  datatype Plan =
    | CustomBuild(dir: string)
    | PackageUpgrade(manager: Manager, package: string)
    | NoCommand

  ghost predicate WellFormed(plan: Plan) {
    plan.PackageUpgrade? ==> plan.manager != NoManager
  }

  /** The branch chain of src/main.cpp:95-103. */
  function SelectPlan(customPath: string, manager: Manager, version: string): (plan: Plan)
    ensures WellFormed(plan)
    ensures plan.CustomBuild? <==> customPath != ""
    ensures plan.NoCommand? <==> customPath == "" && manager == NoManager
  {
    if customPath != "" then CustomBuild(customPath)
    else match manager
      case Pacman => PackageUpgrade(Pacman, version)
      case Apt => PackageUpgrade(Apt, version)
      case Dnf => PackageUpgrade(Dnf, version)
      case NoManager => NoCommand
  }

  function ManagerPrefix(manager: Manager): string {
    match manager
    case Pacman => PacmanPrefix
    case Apt => AptPrefix
    case _ => DnfPrefix
  }

  /** The shell text of a plan: empty only when there is nothing to run. */
  function CommandText(plan: Plan): (cmd: string)
    ensures cmd == "" <==> plan.NoCommand?
  {
    match plan
    case CustomBuild(dir) => "cd " + dir + MakepkgSuffix
    case PackageUpgrade(manager, package) => ManagerPrefix(manager) + package
    case NoCommand => ""
  }

  /** The command string perform_update builds: empty exactly when there is
      neither a custom path nor a manager, and a build in the custom
      directory whenever one is set. */
  function UpgradeCommand(customPath: string, manager: Manager, version: string): (cmd: string)
    ensures cmd == "" <==> customPath == "" && manager == NoManager
    ensures customPath != "" ==> "cd " + customPath <= cmd
  {
    CommandText(SelectPlan(customPath, manager, version))
  }

  /** Reads back which plan a command text came from. */
  function ParseCommand(cmd: string): Option<Plan> {
    if cmd == "" then Some(NoCommand)
    else if "cd " <= cmd && |cmd| >= 3 + |MakepkgSuffix| && cmd[|cmd| - |MakepkgSuffix|..] == MakepkgSuffix
    then Some(CustomBuild(cmd[3..|cmd| - |MakepkgSuffix|]))
    else if PacmanPrefix <= cmd then Some(PackageUpgrade(Pacman, cmd[|PacmanPrefix|..]))
    else if AptPrefix <= cmd then Some(PackageUpgrade(Apt, cmd[|AptPrefix|..]))
    else if DnfPrefix <= cmd then Some(PackageUpgrade(Dnf, cmd[|DnfPrefix|..]))
    else None
  }

  /** The command text of every well-formed plan parses back to that plan:
      the path or package name is spliced in verbatim and the four command
      shapes cannot be confused with one another. */
  lemma ParseCommandText(plan: Plan)
    requires WellFormed(plan)
    ensures ParseCommand(CommandText(plan)) == Some(plan)
  {
    var cmd := CommandText(plan);
    match plan
    case NoCommand =>
    case CustomBuild(dir) =>
      assert cmd[..3] == "cd ";
      assert cmd[|cmd| - |MakepkgSuffix|..] == MakepkgSuffix;
      assert cmd[3..|cmd| - |MakepkgSuffix|] == dir;
    case PackageUpgrade(manager, package) =>
      var prefix := ManagerPrefix(manager);
      assert cmd[..|prefix|] == prefix;
      assert cmd[|prefix|..] == package;
      assert cmd[0] == 's';
      assert !("cd " <= cmd);
      if manager != Pacman {
        assert cmd[5] != PacmanPrefix[5];
        if manager != Apt {
          assert cmd[5] != AptPrefix[5];
        }
      }
  }

  /** Two updates run the same command only if they chose the same plan. */
  lemma CommandDeterminesPlan(p1: string, m1: Manager, v1: string, p2: string, m2: Manager, v2: string)
    requires UpgradeCommand(p1, m1, v1) == UpgradeCommand(p2, m2, v2)
    ensures SelectPlan(p1, m1, v1) == SelectPlan(p2, m2, v2)
  {
    ParseCommandText(SelectPlan(p1, m1, v1));
    ParseCommandText(SelectPlan(p2, m2, v2));
  }

  /** A set custom path decides the command alone: the manager and the
      selected package are ignored, and the command builds and installs
      from that directory. */
  lemma CustomPathDominates(path: string, m1: Manager, v1: string, m2: Manager, v2: string)
    requires path != ""
    ensures UpgradeCommand(path, m1, v1) == UpgradeCommand(path, m2, v2)
    ensures UpgradeCommand(path, m1, v1) == "cd " + path + " && sudo makepkg -i --noconfirm"
  {
  }

  /** Without a custom path, each manager gets its own command ending in
      the selected package name. */
  lemma ManagerCommands(version: string)
    ensures UpgradeCommand("", Pacman, version) == "sudo pacman -Syu " + version
    ensures UpgradeCommand("", Apt, version) == "sudo apt update && sudo apt upgrade " + version
    ensures UpgradeCommand("", Dnf, version) == "sudo dnf upgrade " + version
  {
  }
}
