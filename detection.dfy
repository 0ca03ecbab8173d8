/** Package-manager detection (src/main.cpp:77-83). Each manager is probed
    by asking the shell for its executable; the exit status of each probe
    is an input here, 0 meaning the executable was found. The chain stops at
    the first probe that succeeds. */
module Detection {

  /** The detected package manager; NoManager stands for the empty name. */
  datatype Manager = NoManager | Pacman | Apt | Dnf

  /** The name the program keeps for a manager (empty when none was found). */
  function Name(m: Manager): (name: string)
    ensures name == "" <==> m == NoManager
  {
    match m
    case NoManager => ""
    case Pacman => "pacman"
    case Apt => "apt"
    case Dnf => "dnf"
  }

  /** The managers, in the order the chain probes them. */
  const Priority: seq<Manager> := [Pacman, Apt, Dnf]

  /** The shell command that probes for `m`. */
  function ProbeCommand(m: Manager): string {
    "which " + Name(m) + " > /dev/null 2>&1"
  }

  /** Each probe command names exactly one manager: different managers are
      probed by different commands. */
  lemma ProbeCommandsDistinct(m1: Manager, m2: Manager)
    ensures ProbeCommand(m1) == ProbeCommand(m2) <==> m1 == m2
  {
    if m1 != m2 && |Name(m1)| == |Name(m2)| {
      assert ProbeCommand(m1)[6] != ProbeCommand(m2)[6];
    }
  }

  /** Reference definition of a priority scan: the index of the first zero
      status, or |statuses| when there is none. */
  function FirstSuccess(statuses: seq<int>): (k: nat)
    ensures k <= |statuses|
    ensures k < |statuses| ==> statuses[k] == 0
    ensures forall j :: 0 <= j < k ==> statuses[j] != 0
  {
    if statuses == [] then 0
    else if statuses[0] == 0 then 0
    else 1 + FirstSuccess(statuses[1..])
  }

  /** The detected manager, from the exit statuses of the three probes. */
  function Detect(pacman: int, apt: int, dnf: int): (m: Manager)
    ensures m == Pacman <==> pacman == 0
    ensures m == Apt <==> pacman != 0 && apt == 0
    ensures m == Dnf <==> pacman != 0 && apt != 0 && dnf == 0
    ensures m == NoManager <==> pacman != 0 && apt != 0 && dnf != 0
  {
    if pacman == 0 then Pacman
    else if apt == 0 then Apt
    else if dnf == 0 then Dnf
    else NoManager
  }

  /** Detection is the priority scan over Priority: the result is the first
      manager, in probing order, whose probe succeeded. */
  lemma DetectIsPriorityScan(pacman: int, apt: int, dnf: int)
    ensures var k := FirstSuccess([pacman, apt, dnf]);
            Detect(pacman, apt, dnf) == if k < |Priority| then Priority[k] else NoManager
  {
    ScanOfThree(pacman, apt);
  }

  /** A manager found earlier in the order wins whatever the later probes say. */
  lemma {:induction false} EarlierTakesPrecedence(statuses: seq<int>, others: seq<int>, i: nat)
    requires |statuses| == |others| && i < |statuses| && statuses[i] == 0
    requires forall j :: 0 <= j <= i ==> others[j] == statuses[j]
    ensures FirstSuccess(others) == FirstSuccess(statuses) <= i
  {
    if statuses[0] != 0 {
      EarlierTakesPrecedence(statuses[1..], others[1..], i - 1);
    }
  }

  /** How many probes a scan that stopped at index k ran: up to and
      including the successful one, or all of them. */
  function Stop(k: nat): nat {
    if k < |Priority| then k + 1 else |Priority|
  }

  /** The reference scan over three statuses, whatever the last one is. */
  lemma ScanOfThree(pacman: int, apt: int)
    ensures forall dnf: int ::
              FirstSuccess([pacman, apt, dnf])
                == if pacman == 0 then 0 else if apt == 0 then 1 else if dnf == 0 then 2 else 3
  {
    forall dnf: int
      ensures FirstSuccess([pacman, apt, dnf])
        == if pacman == 0 then 0 else if apt == 0 then 1 else if dnf == 0 then 2 else 3
    {
      var s := [pacman, apt, dnf];
      assert s[1..] == [apt, dnf] && s[1..][1..] == [dnf] && s[1..][1..][1..] == [];
      if pacman != 0 {
        assert FirstSuccess(s) == 1 + FirstSuccess([apt, dnf]);
        if apt != 0 {
          assert FirstSuccess([apt, dnf]) == 1 + FirstSuccess([dnf]);
          assert FirstSuccess([dnf]) == if dnf == 0 then 0 else 1 + FirstSuccess([]);
        }
      }
    }
  }

  /** The probe commands the chain runs, in order: up to and including the
      first that succeeds (all three when none does). The dnf probe's
      status never decides how many probes run. */
  function ProbesRun(pacman: int, apt: int): (probes: seq<string>)
    ensures 1 <= |probes| <= |Priority|
    ensures forall i :: 0 <= i < |probes| ==> probes[i] == ProbeCommand(Priority[i])
    ensures |probes| < |Priority| <==> pacman == 0 || apt == 0
    ensures forall dnf: int :: |probes| == Stop(FirstSuccess([pacman, apt, dnf]))
  {
    ScanOfThree(pacman, apt);
    if pacman == 0 then [ProbeCommand(Pacman)]
    else if apt == 0 then [ProbeCommand(Pacman), ProbeCommand(Apt)]
    else [ProbeCommand(Pacman), ProbeCommand(Apt), ProbeCommand(Dnf)]
  }

  /** The last probe run is the one for the detected manager, when there is one. */
  lemma LastProbeFindsManager(pacman: int, apt: int, dnf: int)
    requires Detect(pacman, apt, dnf) != NoManager
    ensures var probes := ProbesRun(pacman, apt);
            probes[|probes| - 1] == ProbeCommand(Detect(pacman, apt, dnf))
  {
  }
}
