/** The guest listing: one line per VM, printed by the server and searched by the client for one VM's state. */
module GuestListing {
  import opened Text
  import opened VmStates

  datatype Guest = Guest(name: string, state: VmState)

  function Line(g: Guest): string {
    g.name + [':'] + Name(g.state)
  }

  function Listing(vmis: seq<Guest>): (list: seq<string>)
    ensures |list| == |vmis|
  {
    seq(|vmis|, i requires 0 <= i < |vmis| => Line(vmis[i]))
  }

  /** The server's loop. */
  method ListVm(vmis: seq<Guest>) returns (list: seq<string>)
    ensures list == Listing(vmis)
  {
    list := [];
    for i := 0 to |vmis|
      invariant |list| == i
      invariant forall j :: 0 <= j < i ==> list[j] == Line(vmis[j])
    {
      list := list + [vmis[i].name + [':'] + Name(vmis[i].state)];
    }
  }

  const UNKNOWN: nat := 5

  /** The state numbered below Unknown that carries this name, or Unknown. */
  function Recognised(text: string): (n: nat)
    ensures n <= UNKNOWN && (n < UNKNOWN ==> Name(Numbered(n)) == text)
    ensures n == UNKNOWN ==> forall m: nat :: m < UNKNOWN ==> Name(Numbered(m)) != text
  {
    if text == Name(Empty) then 0
    else if text == Name(Created) then 1
    else if text == Name(Booting) then 2
    else if text == Name(Running) then 3
    else if text == Name(Paused) then 4
    else UNKNOWN
  }

  /** What one line says about `name`: Unknown for a line of another VM, or one that does not split in two. */
  function LineState(line: string, name: string): nat {
    var sp := Split(line, ':');
    if |sp| == 2 && sp[0] == name then Recognised(sp[1]) else UNKNOWN
  }

  /** What the first line that says anything about `name` says. */
  function Search(list: seq<string>, name: string): nat {
    if list == [] then UNKNOWN
    else if LineState(list[0], name) < UNKNOWN then LineState(list[0], name)
    else Search(list[1..], name)
  }

  /** The client's nested search loop, on the list the server leaves it. */
  method GetGuestState(name: string, serverRunning: bool, list: seq<string>) returns (state: int)
    ensures state == if name == "" || !serverRunning then -1 else Search(list, name)
  {
    if name == "" {
      return -1;
    }
    if !serverRunning {
      return -1;
    }
    var k := 0;
    while k < |list|
      invariant 0 <= k <= |list|
      invariant Search(list, name) == Search(list[k..], name)
    {
      var sp := Split(list[k], ':');
      assert list[k..][1..] == list[k + 1..];
      k := k + 1;
      if |sp| != 2 {
        continue;
      }
      if sp[0] == name {
        var i := 0;
        while i < UNKNOWN
          invariant 0 <= i <= UNKNOWN
          invariant forall m: nat :: m < i ==> Name(Numbered(m)) != sp[1]
        {
          if sp[1] == Name(Numbered(i)) {
            OneName(sp[1], i);
            return i;
          }
          i := i + 1;
        }
      }
    }
    return UNKNOWN;
  }

  lemma OneName(text: string, i: nat)
    requires i < UNKNOWN && text == Name(Numbered(i))
    ensures Recognised(text) == i
  {
    var n := Recognised(text);
    assert n < UNKNOWN;
    NamesDiffer(Numbered(n), Numbered(i));
  }

  // ---------------------------------------------------------------- the round trip

  ghost predicate DistinctNames(vmis: seq<Guest>) {
    forall i, j :: 0 <= i < j < |vmis| ==> vmis[i].name != vmis[j].name
  }

  lemma {:induction false} SplitsAtColon(s: string)
    requires ':' in s
    ensures |Split(s, ':')| >= 2
  {
    if s[0] != ':' {
      SplitsAtColon(s[1..]);
    }
  }

  /** The line of a VM answers for the query `name` exactly if it is that VM and the name holds no colon. */
  lemma LineAnswers(g: Guest, name: string)
    ensures LineState(Line(g), name) == if g.name == name && ':' !in name then Number(g.state) else UNKNOWN
  {
    var st := Name(g.state);
    NamesDiffer(g.state, g.state);
    SplitWhole(st, ':');
    SplitAt(g.name, ':', st);
    if ':' in g.name {
      SplitsAtColon(g.name);
    } else {
      SplitWhole(g.name, ':');
      if g.state != Unknown {
        OneName(st, Number(g.state));
      } else {
        forall m: nat | m < UNKNOWN
          ensures Name(Numbered(m)) != st
        {
          NamesDiffer(Numbered(m), g.state);
        }
      }
    }
  }

  lemma {:induction false} OnePiece(s: string)
    requires |Split(s, ':')| == 1
    ensures Split(s, ':') == [s]
  {
    if s != "" {
      OnePiece(s[1..]);
      assert s == [s[0]] + s[1..];
    }
  }

  lemma {:induction false} TwoPieces(s: string)
    requires |Split(s, ':')| == 2
    ensures s == Split(s, ':')[0] + [':'] + Split(s, ':')[1]
  {
    assert s == [s[0]] + s[1..];
    if s[0] == ':' {
      OnePiece(s[1..]);
    } else {
      TwoPieces(s[1..]);
    }
  }

  /** A line, printed by anyone, says that VM `name` is in the state numbered `n` exactly if it is that name, a colon and
      that state's name, and the name holds no colon. */
  lemma LineIsExact(line: string, name: string, n: nat)
    requires n < UNKNOWN
    ensures LineState(line, name) == n <==> ':' !in name && line == name + [':'] + Name(Numbered(n))
  {
    if ':' !in name && line == name + [':'] + Name(Numbered(n)) {
      LineAnswers(Guest(name, Numbered(n)), name);
    }
    if LineState(line, name) == n {
      TwoPieces(line);
      assert Split(line, ':')[0] in Split(line, ':');
    }
  }

  /** The search yields what the first line says that says anything. */
  lemma {:induction false} SearchIsFirst(list: seq<string>, name: string)
    ensures Search(list, name) <= UNKNOWN
    ensures if Search(list, name) == UNKNOWN then forall j :: 0 <= j < |list| ==> LineState(list[j], name) == UNKNOWN
            else exists k :: 0 <= k < |list| && LineState(list[k], name) == Search(list, name) &&
                   forall j :: 0 <= j < k ==> LineState(list[j], name) == UNKNOWN
  {
    if list != [] && LineState(list[0], name) == UNKNOWN {
      SearchIsFirst(list[1..], name);
      if Search(list, name) < UNKNOWN {
        var k :| 0 <= k < |list[1..]| && LineState(list[1..][k], name) == Search(list, name) &&
          forall j :: 0 <= j < k ==> LineState(list[1..][j], name) == UNKNOWN;
        assert LineState(list[k + 1], name) == Search(list, name);
        assert forall j :: 1 <= j < k + 1 ==> list[j] == list[1..][j - 1];
      }
    }
  }

  lemma {:induction false} SearchFinds(vmis: seq<Guest>, name: string)
    requires DistinctNames(vmis)
    ensures Search(Listing(vmis), name) ==
      if ':' !in name && exists i :: 0 <= i < |vmis| && vmis[i].name == name
      then var i :| 0 <= i < |vmis| && vmis[i].name == name; Number(vmis[i].state)
      else UNKNOWN
  {
    if vmis != [] {
      LineAnswers(vmis[0], name);
      assert Listing(vmis)[1..] == Listing(vmis[1..]);
      SearchFinds(vmis[1..], name);
      if j :| 0 <= j < |vmis| && vmis[j].name == name {
        if j > 0 {
          assert vmis[1..][j - 1].name == name;
        }
      }
    }
  }

  /** Asking the printed list for a registered VM yields its exact state, whatever names the other VMs have, if and
      only if its own name holds no colon or its state is Unknown anyway. */
  lemma ListingRoundTrip(vmis: seq<Guest>, i: nat)
    requires DistinctNames(vmis) && i < |vmis|
    ensures Search(Listing(vmis), vmis[i].name) == Number(vmis[i].state) <==>
      ':' !in vmis[i].name || vmis[i].state == Unknown
  {
    SearchFinds(vmis, vmis[i].name);
  }

  /** Asking for a VM that is not registered yields Unknown. */
  lemma AbsentIsUnknown(vmis: seq<Guest>, name: string)
    requires DistinctNames(vmis) && forall i :: 0 <= i < |vmis| ==> vmis[i].name != name
    ensures Search(Listing(vmis), name) == UNKNOWN
  {
    SearchFinds(vmis, name);
  }
}
