/** Exclusivity of context ids over whole runs, and the run that shows what it depends on: a stop releases the
    cid, and the destructor releases it a second time. */
module LifecycleCids {
  import opened Options
  import opened CidPool
  import opened VmStates
  import opened VmRegistry
  import opened QemuBuilder
  import opened StartupListener
  import opened Lifecycle
  import opened LifecycleBase

  /** An existing builder that has not been stopped holds its cid. */
  predicate Holds(v: Vm) {
    v.live && !v.stopped
  }

  predicate HolderOf(s: State, k: nat, b: nat) {
    InVm(s, b) && Holds(s.vms[b]) && s.vms[b].cid == k
  }

  /** A bit in [3, 10000) is clear exactly if one builder holds that cid, and then only one does. */
  ghost predicate PoolExact(s: State) {
    && (forall b: nat :: InVm(s, b) ==> FIRST_CID <= s.vms[b].cid < MAX_CID)
    && (forall b: nat :: InVm(s, b) && Holds(s.vms[b]) ==> !s.bits[s.vms[b].cid])
    && (forall b: nat, c: nat :: InVm(s, b) && Holds(s.vms[b]) && HolderOf(s, s.vms[b].cid, c) ==> b == c)
    && (forall k: nat :: FIRST_CID <= k < MAX_CID && !s.bits[k] ==> exists b: nat :: HolderOf(s, k, b))
  }

  /** No builder holds a cid that a stopped, not yet destroyed builder remembers. */
  ghost predicate NoneReused(s: State) {
    forall b: nat, c: nat :: InVm(s, b) && InVm(s, c) && s.vms[b].live && s.vms[b].stopped && Holds(s.vms[c]) ==>
      s.vms[b].cid != s.vms[c].cid
  }

  ghost predicate CidInv(s: State) {
    PoolExact(s) && NoneReused(s)
  }

  /** No stopped, not yet destroyed builder remembers cid `k`. */
  ghost predicate Unremembered(s: State, k: nat) {
    forall b: nat :: InVm(s, b) && s.vms[b].live && s.vms[b].stopped ==> s.vms[b].cid != k
  }

  /** The action does not hand out a cid between an explicit stop of its last owner and that owner's destruction. */
  ghost predicate Careful(s: State, a: Action)
    requires Enabled(s, a)
  {
    var t := Apply(s, a);
    |t.vms| > |s.vms| ==> Unremembered(s, t.vms[|s.vms|].cid)
  }

  ghost predicate CarefulRun(acts: seq<Action>)
    decreases |acts|
  {
    acts == [] ||
    (var s, a := Exec(Init(), acts[..|acts| - 1]), acts[|acts| - 1];
     CarefulRun(acts[..|acts| - 1]) && s.Some? && Enabled(s.value, a) && Careful(s.value, a))
  }

  // ---------------------------------------------------------------- every careful action keeps it

  lemma SamePool(s: State, t: State)
    requires CidInv(s) && t.bits == s.bits && |t.vms| == |s.vms|
    requires forall b: nat :: InVm(s, b) ==>
      t.vms[b].cid == s.vms[b].cid && t.vms[b].live == s.vms[b].live && t.vms[b].stopped == s.vms[b].stopped
    ensures CidInv(t)
  {
    forall k: nat | FIRST_CID <= k < MAX_CID && !t.bits[k]
      ensures exists b: nat :: HolderOf(t, k, b)
    {
      var b: nat :| HolderOf(s, k, b);
      assert HolderOf(t, k, b);
    }
  }

  /** A holder other than `b` has another cid than `b`. */
  lemma HoldersApart(s: State, b: nat, c: nat)
    requires CidInv(s) && InVm(s, b) && s.vms[b].live && InVm(s, c) && Holds(s.vms[c]) && c != b
    ensures s.vms[c].cid != s.vms[b].cid
  {
    assert HolderOf(s, s.vms[c].cid, c);
  }

  /** Stopping or destroying a builder keeps the pool exact, whether or not it was stopped before. */
  lemma StopKeepsPool(s: State, t: State, b: nat)
    requires CidInv(s) && InVm(s, b) && s.vms[b].live
    requires |t.vms| == |s.vms| && t.vms == s.vms[b := t.vms[b]]
    requires t.vms[b].cid == s.vms[b].cid && t.vms[b].stopped && t.bits == Release(s.bits, s.vms[b].cid)
    ensures CidInv(t)
  {
    forall c: nat | InVm(t, c) && Holds(t.vms[c])
      ensures c != b && t.vms[c] == s.vms[c] && t.vms[c].cid != t.vms[b].cid
    {
      HoldersApart(s, b, c);
    }
    forall k: nat | FIRST_CID <= k < MAX_CID && !t.bits[k]
      ensures exists c: nat :: HolderOf(t, k, c)
    {
      var c: nat :| HolderOf(s, k, c);
      assert HolderOf(t, k, c);
    }
    forall c: nat, d: nat | InVm(t, c) && Holds(t.vms[c]) && HolderOf(t, t.vms[c].cid, d)
      ensures c == d
    {
      assert HolderOf(s, s.vms[c].cid, d);
    }
  }

  lemma AddKeepsPool(s: State, t: State, v: Vm)
    requires CidInv(s) && t.vms == s.vms + [v] && Holds(v)
    requires FIRST_CID <= v.cid < MAX_CID && s.bits[v.cid] && t.bits == s.bits[v.cid := false]
    requires Unremembered(s, v.cid)
    ensures CidInv(t)
  {
    forall k: nat | FIRST_CID <= k < MAX_CID && !t.bits[k]
      ensures exists c: nat :: HolderOf(t, k, c)
    {
      if k == v.cid {
        assert HolderOf(t, k, |s.vms|);
      } else {
        var c: nat :| HolderOf(s, k, c);
        assert HolderOf(t, k, c);
      }
    }
  }

  lemma DeleteKeepsPool(s: State, name: string)
    requires CidInv(s) && Registered(s)
    ensures CidInv(DeleteNamed(s, name))
  {
    var i := Find(s.vmis, name);
    if i < |s.vmis| {
      assert s.vmis[i] in s.vmis;
      DeleteDestroys(s, s.vmis[i].id);
      StopKeepsPool(s, DeleteNamed(s, name), s.vmis[i].id);
    }
  }

  lemma BuildKeepsPool(s: State)
    requires CidInv(s) && s.server.Building? && Careful(s, FinishBuild)
    ensures CidInv(Apply(s, FinishBuild))
  {
    var t := Apply(s, FinishBuild);
    BuildEffect(s);
    if |t.vms| > |s.vms| {
      AddKeepsPool(s, t, t.vms[|s.vms|]);
    } else {
      SamePool(s, t);
    }
  }

  /** A step of VM `b` that leaves the pool, its cid and its existence alone. */
  lemma OwnStepKeepsPool(s: State, t: State, b: nat)
    requires CidInv(s) && InVm(s, b) && t.bits == s.bits && |t.vms| == |s.vms| && t.vms == s.vms[b := t.vms[b]]
    requires t.vms[b].cid == s.vms[b].cid && t.vms[b].live == s.vms[b].live && t.vms[b].stopped == s.vms[b].stopped
    ensures CidInv(t)
  {
    SamePool(s, t);
  }

  lemma DeleteOwnKeepsPool(s: State, b: nat, pc: ThreadPc)
    requires CidInv(s) && Registered(s) && InVm(s, b)
    ensures CidInv(DeleteOwn(s, b, pc))
  {
    DeleteKeepsPool(s, s.vms[b].name);
    OwnStepKeepsPool(DeleteNamed(s, s.vms[b].name), DeleteOwn(s, b, pc), b);
  }

  lemma TouchKeepsPool(s: State, b: nat)
    requires CidInv(s) && Registered(s) && InVm(s, b)
    ensures CidInv(Touched(s, b)) && Registered(Touched(s, b))
  {
    SamePool(s, Touched(s, b));
  }

  lemma DeletingKeepsPool(s: State, b: nat)
    requires CidInv(s) && Base(s) && ThreadReady(s, b) && (s.vms[b].thread.Deleting? || s.vms[b].thread.Failing?)
    ensures CidInv(ThreadNext(s, b))
  {
    TouchKeepsPool(s, b);
    DeleteOwnKeepsPool(Touched(s, b), b, if s.vms[b].thread.Deleting? then Ended(true) else LateReleasing);
    DeletingStep(s, b);
  }

  lemma CountingKeepsPool(s: State, b: nat)
    requires CidInv(s) && ThreadReady(s, b)
    requires s.vms[b].thread.Counting? || s.vms[b].thread.Releasing? || s.vms[b].thread.LateReleasing?
    ensures CidInv(ThreadNext(s, b))
  {
    OwnStepKeepsPool(s, ThreadNext(s, b), b);
  }

  lemma ThreadKeepsPool(s: State, b: nat)
    requires CidInv(s) && Base(s) && ThreadReady(s, b)
    ensures CidInv(ThreadNext(s, b))
  {
    var pc := s.vms[b].thread;
    if pc.Deleting? || pc.Failing? {
      DeletingKeepsPool(s, b);
    } else if pc.Counting? || pc.Releasing? || pc.LateReleasing? {
      CountingKeepsPool(s, b);
    } else {
      OwnStepKeepsPool(s, ThreadNext(s, b), b);
    }
  }

  lemma StopDoneKeepsPool(s: State, shutdown: bool)
    requires CidInv(s) && Base(s) && s.server.StoppingAt?
    ensures CidInv(Apply(s, StopDone(shutdown)))
  {
    var b := At(s, s.server.index);
    if !shutdown && b.Some? {
      assert s.vmis[s.server.index] in s.vmis;
      StopKeepsPool(s, Apply(s, StopDone(shutdown)), b.value);
    } else {
      SamePool(s, Apply(s, StopDone(shutdown)));
    }
  }

  lemma OverwriteKeepsPool(s: State)
    requires CidInv(s) && Base(s) && s.server.Overwriting?
    ensures CidInv(Apply(s, Overwrite))
  {
    DeleteKeepsPool(s, s.server.name);
    SamePool(DeleteNamed(s, s.server.name), Apply(s, Overwrite));
  }

  lemma ReadyKeepsPool(s: State, peer: Peer)
    requires CidInv(s)
    ensures CidInv(Apply(s, Ready(peer)))
  {
    SamePool(s, Apply(s, Ready(peer)));
  }

  lemma KeepsCids(s: State, a: Action)
    requires CidInv(s) && Base(s) && Enabled(s, a) && Careful(s, a)
    ensures CidInv(Apply(s, a))
  {
    match a
    case Overwrite => OverwriteKeepsPool(s);
    case FinishBuild => BuildKeepsPool(s);
    case StopDone(shutdown) => StopDoneKeepsPool(s, shutdown);
    case Thread(b) => ThreadKeepsPool(s, b);
    case Ready(peer) => ReadyKeepsPool(s, peer);
    case _ => SamePool(s, Apply(s, a));
  }

  lemma {:induction false} RunKeepsCids(acts: seq<Action>)
    requires Exec(Init(), acts).Some? && CarefulRun(acts)
    ensures CidInv(Exec(Init(), acts).value)
    decreases |acts|
  {
    if acts != [] {
      RunKeepsCids(acts[..|acts| - 1]);
      RunKeepsBase(Init(), acts[..|acts| - 1]);
      KeepsCids(Exec(Init(), acts[..|acts| - 1]).value, acts[|acts| - 1]);
    }
  }

  /** Some careful run ends in `s`. */
  ghost predicate CarefullyReached(s: State) {
    exists acts :: CarefulRun(acts) && Exec(Init(), acts) == Some(s)
  }

  /** In every careful run no two existing, unstopped builders share a cid, and a bit in [3, 10000) is clear exactly
      if exactly one such builder holds that cid. */
  lemma CidsAreExclusive(s: State, k: nat)
    requires CarefullyReached(s) && FIRST_CID <= k < MAX_CID
    ensures !s.bits[k] <==> exists b: nat :: HolderOf(s, k, b)
    ensures forall b: nat, c: nat :: HolderOf(s, k, b) && HolderOf(s, k, c) ==> b == c
  {
    var acts :| CarefulRun(acts) && Exec(Init(), acts) == Some(s);
    RunKeepsCids(acts);
  }

  /** The pool stays exact where neither the bits nor the holders change. */
  lemma SameHolders(s: State, t: State)
    requires PoolExact(s) && t.bits == s.bits && |t.vms| == |s.vms|
    requires forall b: nat :: InVm(s, b) ==> t.vms[b].cid == s.vms[b].cid && Holds(t.vms[b]) == Holds(s.vms[b])
    ensures PoolExact(t)
  {
    forall k: nat | FIRST_CID <= k < MAX_CID && !t.bits[k]
      ensures exists b: nat :: HolderOf(t, k, b)
    {
      var b: nat :| HolderOf(s, k, b);
      assert HolderOf(t, k, b);
    }
  }

  /** A second release of a cid nobody holds changes nothing. */
  lemma IdleRelease(s: State, b: nat)
    requires Registered(s) && PoolExact(s) && InVm(s, b) && s.vms[b].live && s.vms[b].stopped && !InHand(s, b)
    requires forall c: nat :: !HolderOf(s, s.vms[b].cid, c)
    ensures PoolExact(DeleteNamed(s, s.vms[b].name))
  {
    DeleteDestroys(s, b);
    var t := DeleteNamed(s, s.vms[b].name);
    assert s.bits[s.vms[b].cid];
    assert t.bits == s.bits;
    SameHolders(s, t);
  }

  /** The second release is harmless exactly if nobody has been given the cid in between: destroying a stopped
      builder keeps the pool exact if and only if no builder holds the cid it remembers. */
  lemma SecondReleaseHarmless(s: State, b: nat)
    requires Registered(s) && PoolExact(s) && InVm(s, b) && s.vms[b].live && s.vms[b].stopped && !InHand(s, b)
    ensures PoolExact(DeleteNamed(s, s.vms[b].name)) <==> forall c: nat :: !HolderOf(s, s.vms[b].cid, c)
  {
    if c: nat :| HolderOf(s, s.vms[b].cid, c) {
      DeleteDestroys(s, b);
      var t := DeleteNamed(s, s.vms[b].name);
      assert InVm(t, c) && Holds(t.vms[c]) && t.bits[t.vms[c].cid];
    } else {
      IdleRelease(s, b);
    }
  }
}
