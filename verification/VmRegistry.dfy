/** The server's vector of VM instances, searched and erased by name. */
module VmRegistry {

  /** An instance: the builder's identity and its name. */
  datatype Entry = Entry(id: nat, name: string)

  /** The index of the first entry called `name`, or the length. */
  function Find(vmis: seq<Entry>, name: string): (i: nat)
    ensures i <= |vmis|
    ensures i < |vmis| ==> vmis[i].name == name
    ensures forall j :: 0 <= j < i ==> vmis[j].name != name
  {
    if vmis == [] || vmis[0].name == name then 0 else 1 + Find(vmis[1..], name)
  }

  function Remove(vmis: seq<Entry>, i: nat): seq<Entry>
    requires i < |vmis|
  {
    vmis[..i] + vmis[i + 1..]
  }

  /** `DeleteVmInstance`: drops the first entry called `name`, if any. */
  function Delete(vmis: seq<Entry>, name: string): seq<Entry> {
    var i := Find(vmis, name);
    if i == |vmis| then vmis else Remove(vmis, i)
  }

  ghost predicate DistinctNames(vmis: seq<Entry>) {
    forall i, j :: 0 <= i < j < |vmis| ==> vmis[i].name != vmis[j].name
  }

  /** With distinct names the search finds exactly the entry asked for. */
  lemma FindIsUnique(vmis: seq<Entry>, i: nat)
    requires DistinctNames(vmis) && i < |vmis|
    ensures Find(vmis, vmis[i].name) == i
  {
    var k := Find(vmis, vmis[i].name);
    assert k < |vmis| ==> vmis[k].name == vmis[i].name;
  }

  /** With distinct names, deleting by name removes that one entry, keeps every other in order, and leaves the
      names distinct and the deleted one absent. */
  lemma DeleteIsExact(vmis: seq<Entry>, i: nat)
    requires DistinctNames(vmis) && i < |vmis|
    ensures Delete(vmis, vmis[i].name) == Remove(vmis, i)
    ensures DistinctNames(Remove(vmis, i))
    ensures forall e :: e in Remove(vmis, i) <==> e in vmis && e != vmis[i]
    ensures Find(Remove(vmis, i), vmis[i].name) == |Remove(vmis, i)|
  {
    FindIsUnique(vmis, i);
    var r := Remove(vmis, i);
    forall e | e in vmis && e != vmis[i]
      ensures e in r
    {
      var j :| 0 <= j < |vmis| && vmis[j] == e;
      assert r[if j < i then j else j - 1] == e;
    }
    assert forall j :: 0 <= j < |r| ==> r[j] == vmis[if j < i then j else j + 1];
  }

  class Registry {
    var vmis: seq<Entry>

    constructor ()
      ensures vmis == []
    {
      vmis := [];
    }

    /** `FindVmInstance`, with the length in place of the all-ones index. */
    method FindVmInstance(name: string) returns (index: nat)
      ensures index == Find(vmis, name)
    {
      index := 0;
      while index < |vmis|
        invariant 0 <= index <= |vmis|
        invariant forall j :: 0 <= j < index ==> vmis[j].name != name
      {
        if vmis[index].name == name {
          return;
        }
        index := index + 1;
      }
    }

    method DeleteVmInstance(name: string)
      modifies this
      ensures vmis == Delete(old(vmis), name)
    {
      var index := FindVmInstance(name);
      if index == |vmis| {
        return;
      }
      vmis := vmis[..index] + vmis[index + 1..];
    }
  }
}
