/** The states of a VM, with the numbers and names the program gives them. */
module VmStates {
  datatype VmState = Empty | Created | Booting | Running | Paused | Unknown

  function Number(s: VmState): (n: nat)
    ensures n <= 5
    ensures n == 5 <==> s == Unknown
  {
    match s
    case Empty => 0
    case Created => 1
    case Booting => 2
    case Running => 3
    case Paused => 4
    case Unknown => 5
  }

  function Numbered(n: nat): (s: VmState)
    requires n <= 5
    ensures Number(s) == n
  {
    match n
    case 0 => Empty
    case 1 => Created
    case 2 => Booting
    case 3 => Running
    case 4 => Paused
    case _ => Unknown
  }

  function Name(s: VmState): string {
    match s
    case Empty => "Empty"
    case Created => "Created"
    case Booting => "Booting"
    case Running => "Running"
    case Paused => "Paused"
    case Unknown => "Unknown"
  }

  /** The numbers and names side by side. */
  lemma StateTable(s: VmState)
    ensures Name(s) == ["Empty", "Created", "Booting", "Running", "Paused", "Unknown"][Number(s)]
    ensures [Empty, Created, Booting, Running, Paused, Unknown][Number(s)] == s
  {
  }

  lemma NamesDiffer(s: VmState, t: VmState)
    ensures Name(s) == Name(t) ==> s == t
    ensures ':' !in Name(s)
  {
    assert "Empty"[0] != "Created"[0] && "Booting"[0] != "Running"[0] && "Paused"[0] != "Unknown"[0];
  }
}
