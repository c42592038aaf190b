/** The pool of vsock context ids: a bitset in which a set bit means "available". */
module CidPool {

  const MAX_CID: nat := 10000
  const AUTO_START: nat := 1000
  const FIRST_CID: nat := 3      // 0, 1 and 2 are reserved by the vsock device
  const UINT32: nat := 0x1_0000_0000

  type Bits = b: seq<bool> | |b| == MAX_CID witness seq(MAX_CID, i => true)

  /** The pool before anything was handed out. */
  function AllFree(): (b: Bits)
    ensures forall k :: 0 <= k < MAX_CID ==> b[k]
  {
    seq(MAX_CID, i => true)
  }

  /** What the `vsock_cid` option of a VM asks for. */
  datatype CidRequest = Auto | Explicit(value: nat) | Malformed

  /** The least available id at or after `from`, or MAX_CID. */
  function NextFree(bits: Bits, from: nat): (r: nat)
    requires from <= MAX_CID
    ensures from <= r <= MAX_CID
    ensures r < MAX_CID ==> bits[r]
    ensures forall k :: from <= k < r ==> !bits[k]
    decreases MAX_CID - from
  {
    if from == MAX_CID || bits[from] then from else NextFree(bits, from + 1)
  }

  /** A request for `want` is granted: the id it yields, with 0 for a refusal. */
  function Granted(bits: Bits, want: CidRequest): (cid: nat)
    ensures cid != 0 ==> FIRST_CID <= cid < MAX_CID && bits[cid]
  {
    match want
    case Auto => var k := NextFree(bits, AUTO_START); if k == MAX_CID then 0 else k
    case Explicit(v) =>
      var k := v % UINT32;  // the parsed value is narrowed to 32 bits
      if k < FIRST_CID || k >= MAX_CID || !bits[k] then 0 else k
    case Malformed => 0
  }

  /** The pool after `cid` was granted. */
  function Take(bits: Bits, cid: nat): Bits {
    if cid < MAX_CID && cid != 0 then bits[cid := false] else bits
  }

  /** The pool after a release of `cid`; reserved and out-of-range ids are ignored. */
  function Release(bits: Bits, cid: nat): Bits {
    if FIRST_CID <= cid < MAX_CID then bits[cid := true] else bits
  }

  /** What each request is granted: an explicit one the id it names, narrowed to 32 bits, exactly if that id is neither
      reserved nor too large nor taken; an automatic one the least available id from 1000 on, and nothing exactly if
      there is none. */
  lemma GrantIsExact(bits: Bits, want: CidRequest)
    ensures want.Explicit? ==>
      var k := want.value % 0x1_0000_0000;
      Granted(bits, want) == if 3 <= k < 10000 && bits[k] then k else 0
    ensures want.Auto? ==>
      var cid := Granted(bits, want);
      && (cid == 0 <==> forall k :: 1000 <= k < 10000 ==> !bits[k])
      && (cid != 0 ==> 1000 <= cid < 10000 && bits[cid] && forall k :: 1000 <= k < cid ==> !bits[k])
    ensures want.Malformed? ==> Granted(bits, want) == 0
  {
  }

  /** A grant followed by its release leaves the pool as it was, whatever was asked. */
  lemma GrantThenRelease(bits: Bits, want: CidRequest)
    ensures var cid := Granted(bits, want); Release(Take(bits, cid), cid) == bits
  {
    var cid := Granted(bits, want);
    if cid != 0 {
      assert bits[cid := false][cid := true] == bits;
    }
  }

  /** The pool object.  Its methods run under one lock, so each is one step. */
  class VsockCidPool {
    var bs: array<bool>

    ghost predicate Valid()
      reads this
    {
      bs.Length == MAX_CID
    }

    ghost function Contents(): Bits
      requires Valid()
      reads this, bs
    {
      bs[..]
    }

    constructor ()
      ensures Valid() && fresh(bs)
      ensures Contents() == AllFree()
    {
      bs := new bool[MAX_CID](i => true);
    }

    /** `GetCid()`: the least available id from 1000 on, or 0. */
    method GetCid() returns (cid: nat)
      requires Valid()
      modifies bs
      ensures Valid() && cid == Granted(old(Contents()), Auto)
      ensures cid == 0 <==> forall k :: 1000 <= k < 10000 ==> !old(Contents())[k]
      ensures cid != 0 ==> 1000 <= cid < 10000 && forall k :: 1000 <= k <= cid ==> old(Contents())[k] == (k == cid)
      ensures Contents() == Take(old(Contents()), cid)
      ensures forall k :: 0 <= k < 10000 ==> Contents()[k] == (old(Contents())[k] && (k != cid || cid == 0))
    {
      var pos := NextFree(bs[..], AUTO_START);
      if pos == MAX_CID {
        return 0;
      }
      bs[pos] := false;
      cid := pos;
      assert bs[..] == old(bs[..])[pos := false];
    }

    /** `GetCid(cid)`: the id itself if it is in range and available, or 0. */
    method GetGivenCid(value: nat) returns (cid: nat)
      requires Valid()
      modifies bs
      ensures Valid() && cid == Granted(old(Contents()), Explicit(value))
      ensures var k := value % 0x1_0000_0000; cid == if 3 <= k < 10000 && old(Contents())[k] then k else 0
      ensures Contents() == Take(old(Contents()), cid)
      ensures forall k :: 0 <= k < 10000 ==> Contents()[k] == (old(Contents())[k] && (k != cid || cid == 0))
    {
      cid := value % UINT32;
      if cid < FIRST_CID || cid >= MAX_CID {
        return 0;
      }
      if !bs[cid] {
        return 0;
      }
      bs[cid] := false;
      assert bs[..] == old(bs[..])[cid := false];
    }

    method ReleaseCid(cid: nat) returns (ok: bool)
      requires Valid()
      modifies bs
      ensures Valid() && ok == (3 <= cid < 10000)
      ensures Contents() == Release(old(Contents()), cid)
      ensures forall k :: 0 <= k < 10000 ==> Contents()[k] == (old(Contents())[k] || (k == cid && 3 <= k))
    {
      if cid < FIRST_CID || cid >= MAX_CID {
        return false;
      }
      bs[cid] := true;
      ok := true;
    }
  }
}
