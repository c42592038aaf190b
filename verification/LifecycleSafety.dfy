/** What every interleaving keeps, whatever goes wrong: where each thread is says what state its VM is in and what its
    start waits for, and a VM that waited is only marked running when its guest reported ready. */
module LifecycleSafety {
  import opened Options
  import opened CidPool
  import opened VmStates
  import opened VmRegistry
  import opened QemuBuilder
  import opened StartupListener
  import opened Lifecycle
  import opened LifecycleBase

  // ---------------------------------------------------------------- the invariant

  predicate AwaitedWith(s: State, b: nat, latch: nat) {
    s.server == Awaiting(b, latch)
  }

  /** What the program counter of a VM's thread says about its state and about the latch. */
  predicate ThreadOk(s: State, b: nat)
    requires InVm(s, b)
  {
    var v := s.vms[b];
    match v.thread
    case NoThread => v.state == Created
    case Launching => v.state == Created && AwaitedWith(s, b, if v.waits then 2 else 1)
    case Counting => v.state == Booting && AwaitedWith(s, b, if v.waits then 2 else 1)
    case Readying => v.state == Booting && !v.waits
    case Registering => v.state == Booting && v.waits && AwaitedWith(s, b, 1)
    case Polling => (v.state == Booting || v.state == Running) && v.waits && AwaitedWith(s, b, 1)
    case Releasing => v.state == Running && v.waits && AwaitedWith(s, b, 1)
    case Exiting => v.state == Running
    case Deleting => v.state == Running
    case Failing => (v.state == Booting || v.state == Running) && v.waits && AwaitedWith(s, b, 1)
    case LateReleasing => !v.live && (v.state == Booting || v.state == Running) && v.waits && AwaitedWith(s, b, 1)
    case Ended(ready) => !v.live && (ready ==> v.state == Running) && (!ready ==> v.waits) &&
                         (v.state == Booting || v.state == Running)
  }

  ghost predicate Threads(s: State) {
    && (forall b: nat :: InVm(s, b) ==> ThreadOk(s, b))
    && (s.server.Awaiting? ==> InVm(s, s.server.vm) && Awaited(s.vms[s.server.vm].thread, s.server.latch))
  }

  /** The thread is past every use of its latch. */
  predicate PastLatch(pc: ThreadPc) {
    pc.Readying? || pc.Exiting? || pc.Deleting? || pc.Ended?
  }

  predicate Awaited(pc: ThreadPc, latch: nat) {
    !pc.NoThread? && (latch == 0 ==> PastLatch(pc))
  }

  /** The guest of `b` reported ready, under its own cid, after `b` reached Booting. */
  ghost predicate SawReady(s: State, b: nat)
    requires InVm(s, b)
  {
    exists j :: s.vms[b].mark <= j < |s.history| && s.history[j] == Reported(s.vms[b].cid, b)
  }

  predicate WaitEndedUnready(pc: ThreadPc) {
    pc.Failing? || pc.LateReleasing? || pc == Ended(false)
  }

  ghost predicate Heard(s: State, b: nat)
    requires InVm(s, b)
  {
    s.vms[b].mark <= |s.history| && (s.vms[b].waits && s.vms[b].state == Running ==> SawReady(s, b))
  }

  predicate Waiter(s: State, cid: nat, b: nat) {
    InVm(s, b) && s.vms[b].cid == cid && s.vms[b].waits && s.vms[b].state == Booting &&
    (s.vms[b].thread.Polling? || WaitEndedUnready(s.vms[b].thread))
  }

  /** The start of `b` is between its build and the launch of its thread. */
  predicate UnderWay(s: State, b: nat) {
    (s.server.Built? || s.server.Inserted? || s.server.Misled?) && s.server.vm == b
  }

  /** A report is made once the latch is open, or by a start that launched no thread of that VM; one read from an
      existing builder is not about a failed wait. */
  predicate Fair(s: State, r: Report) {
    && InVm(s, r.vm) && !UnderWay(s, r.vm)
    && (PastLatch(s.vms[r.vm].thread) || (s.vms[r.vm].thread.NoThread? && !r.sawLive))
    && (r.sawLive ==> s.vms[r.vm].thread != Ended(false))
  }

  ghost predicate Listening(s: State) {
    && (forall cid :: cid in s.pending ==> Waiter(s, cid, s.pending[cid]))
    && (forall b: nat :: InVm(s, b) ==> Heard(s, b))
    && (forall r :: r in s.reports ==> Fair(s, r))
  }

  ghost predicate Inv(s: State) {
    Base(s) && Threads(s) && Listening(s)
  }

  // ---------------------------------------------------------------- changes

  /** A builder may be stopped or destroyed at any time. */
  predicate Fades(v: Vm, w: Vm) {
    w == v.(stopped := w.stopped, live := w.live) && (w.live ==> v.live)
  }

  /** A step of the server thread that changes no VM, except that builders may be stopped or destroyed. */
  lemma TurnKeeps(s: State, t: State)
    requires Inv(s) && t.history == s.history && t.pending == s.pending && t.reports == s.reports
    requires |t.vms| == |s.vms| && forall b: nat :: InVm(s, b) ==> Fades(s.vms[b], t.vms[b])
    requires t.server == s.server || (!t.server.Awaiting? && (s.server.Awaiting? ==> s.server.latch == 0))
    requires forall b: nat :: UnderWay(t, b) ==> UnderWay(s, b)
    ensures Threads(t) && Listening(t)
  {
    forall b: nat | InVm(t, b)
      ensures ThreadOk(t, b) && Heard(t, b)
    {
      assert InVm(s, b) && ThreadOk(s, b) && Heard(s, b) && Fades(s.vms[b], t.vms[b]);
      assert SawReady(s, b) ==> SawReady(t, b);
    }
    forall cid | cid in t.pending
      ensures Waiter(t, cid, t.pending[cid])
    {
      assert Waiter(s, cid, s.pending[cid]) && Fades(s.vms[s.pending[cid]], t.vms[s.pending[cid]]);
    }
    forall r | r in t.reports
      ensures Fair(t, r)
    {
      assert Fair(s, r) && Fades(s.vms[r.vm], t.vms[r.vm]);
    }
  }

  /** A change to VM `b` alone, and perhaps to the latch of its own start, keeps what is known of the others. */
  lemma ChangeKeeps(s: State, t: State, b: nat)
    requires Inv(s) && InVm(s, b) && |t.vms| == |s.vms| && t.vms == s.vms[b := t.vms[b]]
    requires t.history == s.history && t.pending == s.pending && t.reports == s.reports
    requires t.server == s.server || (t.server.Awaiting? && t.server.vm == b && (s.server.Awaiting? ==> s.server.vm == b))
    requires t.server.Awaiting? && t.server.vm == b ==> Awaited(t.vms[b].thread, t.server.latch)
    requires ThreadOk(t, b) && Heard(t, b)
    requires forall cid :: cid in s.pending && s.pending[cid] == b ==> Waiter(t, cid, b)
    requires forall r :: r in s.reports && r.vm == b ==> Fair(t, r)
    ensures Threads(t) && Listening(t)
  {
    forall d: nat | InVm(t, d)
      ensures ThreadOk(t, d) && Heard(t, d)
    {
      assert InVm(s, d) && ThreadOk(s, d) && Heard(s, d);
      if d != b {
        assert t.vms[d] == s.vms[d];
        assert SawReady(s, d) ==> SawReady(t, d);
      }
    }
    forall cid | cid in t.pending
      ensures Waiter(t, cid, t.pending[cid])
    {
      assert Waiter(s, cid, s.pending[cid]);
    }
    forall r | r in t.reports
      ensures Fair(t, r)
    {
      assert Fair(s, r);
    }
  }

  // ---------------------------------------------------------------- imports and starts

  /** An instance that has not been started has no thread, unless its start is under way. */
  lemma UnstartedHasNoThread(s: State, b: nat)
    requires Threads(s) && InVm(s, b) && !s.server.Awaiting?
    ensures Overwritable(s.vms[b].state) <==> s.vms[b].thread.NoThread?
  {
    assert ThreadOk(s, b);
  }

  /** Deleting by name destroys at most builders, and none that is not listed. */
  lemma DeleteFades(s: State, name: string)
    requires Base(s)
    ensures var t := DeleteNamed(s, name);
      && t == s.(vms := t.vms, vmis := t.vmis, bits := t.bits)
      && (forall b: nat :: InVm(s, b) ==> Fades(s.vms[b], t.vms[b]))
      && (forall b: nat :: InVm(s, b) && s.vms[b].name == name && !InHand(s, b) ==> !t.vms[b].live)
  {
    var t := DeleteNamed(s, name);
    forall b: nat | InVm(s, b) && s.vms[b].name == name && !InHand(s, b)
      ensures !t.vms[b].live
    {
      if s.vms[b].live {
        DeleteDestroys(s, b);
      }
    }
  }

  lemma OverwriteKeeps(s: State)
    requires Inv(s) && s.server.Overwriting?
    ensures Threads(Apply(s, Overwrite)) && Listening(Apply(s, Overwrite))
  {
    DeleteFades(s, s.server.name);
    TurnKeeps(s, Apply(s, Overwrite));
  }

  lemma BuildKeeps(s: State)
    requires Inv(s) && s.server.Building?
    ensures Threads(Apply(s, FinishBuild)) && Listening(Apply(s, FinishBuild))
  {
    var t := Apply(s, FinishBuild);
    BuildEffect(s);
    if |t.vms| > |s.vms| {
      forall b: nat | InVm(t, b)
        ensures ThreadOk(t, b) && Heard(t, b)
      {
        if b < |s.vms| {
          assert InVm(s, b) && ThreadOk(s, b) && Heard(s, b);
        }
      }
      forall r | r in t.reports
        ensures Fair(t, r)
      {
        assert Fair(s, r);
      }
    } else {
      TurnKeeps(s, t);
    }
  }

  /** A launch finds the VM just inserted, or none. */
  lemma LaunchKeeps(s: State)
    requires Inv(s) && s.server.Inserted?
    ensures Threads(Apply(s, Launch)) && Listening(Apply(s, Launch))
  {
    var t, b := Apply(s, Launch), s.server.vm;
    if At(s, s.server.index).Some? {
      assert ThreadOk(s, b) && Heard(s, b);
      assert forall cid :: cid in s.pending ==> Waiter(s, cid, s.pending[cid]);
      assert forall r :: r in s.reports ==> Fair(s, r);
      ChangeKeeps(s, t, b);
    } else {
      TurnKeeps(s, t);
    }
  }

  // ---------------------------------------------------------------- thread steps

  /** How the thread of a VM may move without touching what the listener and the reports say of it. */
  predicate Moves(pc: ThreadPc, next: ThreadPc) {
    && !pc.NoThread?
    && (PastLatch(pc) ==> PastLatch(next) && (next == Ended(false) ==> pc == Ended(false)))
    && (pc.Polling? || WaitEndedUnready(pc) ==> next.Releasing? || WaitEndedUnready(next))
  }

  /** A step of VM `b`'s thread that keeps its identity, its mark and what the listener holds of it. */
  lemma OwnChangeKeeps(s: State, t: State, b: nat)
    requires Inv(s) && InVm(s, b) && |t.vms| == |s.vms|
    requires t == s.(vms := s.vms[b := t.vms[b]], server := t.server, bits := t.bits, faults := t.faults)
    requires var v, w := s.vms[b], t.vms[b];
      && w == v.(state := w.state, thread := w.thread) && Moves(v.thread, w.thread)
      && (w.state == v.state || (w.state == Running && !v.waits))
      && (w.thread.Releasing? ==> v.state == Running)
    requires t.server == s.server || (s.server.Awaiting? && t.server.Awaiting? && s.server.vm == t.server.vm == b)
    requires t.server.Awaiting? && t.server.vm == b ==> Awaited(t.vms[b].thread, t.server.latch)
    requires ThreadOk(t, b)
    ensures Threads(t) && Listening(t)
  {
    assert Heard(s, b);
    assert SawReady(s, b) ==> SawReady(t, b);
    forall cid | cid in s.pending && s.pending[cid] == b
      ensures Waiter(t, cid, b)
    {
      assert Waiter(s, cid, b);
    }
    forall r | r in s.reports && r.vm == b
      ensures Fair(t, r)
    {
      assert Fair(s, r);
    }
    ChangeKeeps(s, t, b);
  }

  lemma BootKeeps(s: State, b: nat)
    requires Inv(s) && ThreadReady(s, b) && s.vms[b].thread.Launching?
    ensures Threads(ThreadNext(s, b)) && Listening(ThreadNext(s, b))
  {
    assert ThreadOk(s, b) && Heard(s, b);
    assert forall cid :: cid in s.pending ==> Waiter(s, cid, s.pending[cid]);
    assert forall r :: r in s.reports ==> Fair(s, r);
    ChangeKeeps(s, ThreadNext(s, b), b);
  }

  lemma CountKeeps(s: State, b: nat)
    requires Inv(s) && ThreadReady(s, b)
    requires s.vms[b].thread.Counting? || s.vms[b].thread.Releasing? || s.vms[b].thread.LateReleasing?
    ensures Threads(ThreadNext(s, b)) && Listening(ThreadNext(s, b))
  {
    assert ThreadOk(s, b);
    OwnChangeKeeps(s, ThreadNext(s, b), b);
  }

  lemma RunKeeps(s: State, b: nat)
    requires Inv(s) && ThreadReady(s, b) && (s.vms[b].thread.Readying? || s.vms[b].thread.Exiting?)
    ensures Threads(ThreadNext(s, b)) && Listening(ThreadNext(s, b))
  {
    assert ThreadOk(s, b);
    OwnChangeKeeps(s, ThreadNext(s, b), b);
  }

  /** A thread deletes by its VM's name, whichever instance that is by now, and moves on. */
  lemma DeleteOwnKeeps(s: State, b: nat, pc: ThreadPc)
    requires Inv(s) && InVm(s, b) && (if pc.Ended? then s.vms[b].thread.Deleting? else s.vms[b].thread.Failing?)
    requires pc == Ended(true) || pc == LateReleasing
    ensures Threads(DeleteOwn(s, b, pc)) && Listening(DeleteOwn(s, b, pc))
  {
    var d := DeleteNamed(s, s.vms[b].name);
    DeleteFades(s, s.vms[b].name);
    TurnKeeps(s, d);
    DeleteKeepsBase(s, s.vms[b].name);
    assert ThreadOk(d, b) && Fades(s.vms[b], d.vms[b]);
    OwnChangeKeeps(d, DeleteOwn(s, b, pc), b);
  }

  lemma DeletingKeeps(s: State, b: nat)
    requires Inv(s) && ThreadReady(s, b) && (s.vms[b].thread.Deleting? || s.vms[b].thread.Failing?)
    ensures Threads(ThreadNext(s, b)) && Listening(ThreadNext(s, b))
  {
    var f := Touched(s, b);
    SameBase(s, f);
    TurnKeeps(s, f);
    DeleteOwnKeeps(f, b, if s.vms[b].thread.Deleting? then Ended(true) else LateReleasing);
    DeletingStep(s, b);
  }

  // ---------------------------------------------------------------- listener steps

  /** What the history proved of readiness it keeps proving as it grows. */
  lemma HearKeepsReady(s: State, t: State, e: Event, b: nat)
    requires InVm(s, b) && InVm(t, b) && t.history == s.history + [e] && SawReady(s, b)
    requires t.vms[b].mark == s.vms[b].mark && t.vms[b].cid == s.vms[b].cid
    ensures SawReady(t, b)
  {
    var j :| s.vms[b].mark <= j < |s.history| && s.history[j] == Reported(s.vms[b].cid, b);
    assert t.history[j] == s.history[j];
  }

  /** A listener call about VM `b` keeps what is known of the other VMs. */
  lemma HearKeeps(s: State, t: State, e: Event, b: nat)
    requires Inv(s) && InVm(s, b) && e.waiter == b && e.cid == s.vms[b].cid
    requires |t.vms| == |s.vms| && t.vms == s.vms[b := t.vms[b]] && t.vms[b].mark == s.vms[b].mark
    requires PastLatch(s.vms[b].thread) ==> t.vms[b].thread == s.vms[b].thread
    requires !s.vms[b].thread.NoThread? && t.vms[b].waits == s.vms[b].waits
    requires t.history == s.history + [e] && t.pending == Next(s.pending, e) && t.reports == s.reports
    requires e.Reported? ==> forall cid :: cid in s.pending && s.pending[cid] == b ==> cid == e.cid
    requires t.server == s.server
    requires t.server.Awaiting? && t.server.vm == b ==> Awaited(t.vms[b].thread, t.server.latch)
    requires ThreadOk(t, b) && (e.Added? ==> Waiter(t, e.cid, b))
    requires s.vms[b].waits && t.vms[b].state == Running ==> SawReady(t, b)
    ensures Threads(t) && Listening(t)
  {
    forall d: nat | InVm(t, d)
      ensures ThreadOk(t, d) && Heard(t, d)
    {
      assert InVm(s, d) && ThreadOk(s, d) && Heard(s, d);
      if d != b && SawReady(s, d) {
        HearKeepsReady(s, t, e, d);
      }
    }
    forall cid | cid in t.pending
      ensures Waiter(t, cid, t.pending[cid])
    {
      if cid != e.cid {
        assert Waiter(s, cid, s.pending[cid]);
      }
    }
    forall r | r in t.reports
      ensures Fair(t, r)
    {
      assert Fair(s, r);
    }
  }

  lemma RegisterKeeps(s: State, b: nat)
    requires Inv(s) && ThreadReady(s, b) && s.vms[b].thread.Registering?
    ensures Threads(ThreadNext(s, b)) && Listening(ThreadNext(s, b))
  {
    assert ThreadOk(s, b) && Heard(s, b);
    HearKeeps(s, ThreadNext(s, b), Added(s.vms[b].cid, b), b);
  }

  lemma ReadyKeeps(s: State, cid: nat)
    requires Inv(s) && cid in s.pending
    ensures Threads(VmReady(s, cid)) && Listening(VmReady(s, cid))
  {
    var b := s.pending[cid];
    var t := VmReady(s, cid);
    assert Waiter(s, cid, b) && ThreadOk(s, b) && Heard(s, b);
    forall k | k in s.pending && s.pending[k] == b
      ensures k == cid
    {
      assert Waiter(s, k, b);
    }
    assert t.history[|s.history|] == Reported(cid, b);
    assert t.vms == s.vms[b := t.vms[b]];
    HearKeeps(s, t, Reported(cid, b), b);
  }

  // ---------------------------------------------------------------- the remaining requests

  lemma FinishKeeps(s: State, observed: bool)
    requires Inv(s) && Enabled(s, StartDone(observed))
    ensures Threads(Apply(s, StartDone(observed))) && Listening(Apply(s, StartDone(observed)))
  {
    var t, b := Apply(s, StartDone(observed)), s.server.vm;
    TurnKeeps(s, s.(server := Idle));
    assert ThreadOk(s, b);
    forall d: nat | InVm(t, d)
      ensures ThreadOk(t, d) && Heard(t, d)
    {
      assert ThreadOk(s, d) && Heard(s, d);
      assert SawReady(s, d) ==> SawReady(t, d);
    }
    forall cid | cid in t.pending
      ensures Waiter(t, cid, t.pending[cid])
    {
      assert Waiter(s, cid, s.pending[cid]);
    }
    forall r | r in t.reports
      ensures Fair(t, r)
    {
      assert r in s.reports ==> Fair(s, r);
    }
  }

  lemma PollKeeps(s: State, b: nat, ready: bool)
    requires Inv(s) && Enabled(s, Poll(b, ready))
    ensures Threads(Apply(s, Poll(b, ready))) && Listening(Apply(s, Poll(b, ready)))
  {
    assert ThreadOk(s, b);
    OwnChangeKeeps(s, Apply(s, Poll(b, ready)), b);
  }

  lemma ThreadKeeps(s: State, b: nat)
    requires Inv(s) && ThreadReady(s, b)
    ensures Threads(ThreadNext(s, b)) && Listening(ThreadNext(s, b))
  {
    match s.vms[b].thread
    case Launching => BootKeeps(s, b);
    case Registering => RegisterKeeps(s, b);
    case Deleting => DeletingKeeps(s, b);
    case Failing => DeletingKeeps(s, b);
    case Readying => RunKeeps(s, b);
    case Exiting => RunKeeps(s, b);
    case _ => CountKeeps(s, b);
  }

  /** The requests that only search, test or insert. */
  lemma SearchKeeps(s: State, a: Action)
    requires Inv(s) && Enabled(s, a) && (a.Import? || a.ImportTest? || a.Start? || a.StopReq? || a.Insert?)
    ensures Threads(Apply(s, a)) && Listening(Apply(s, a))
  {
    TurnKeeps(s, Apply(s, a));
  }

  lemma StopKeeps(s: State, shutdown: bool)
    requires Inv(s) && s.server.StoppingAt?
    ensures Threads(Apply(s, StopDone(shutdown))) && Listening(Apply(s, StopDone(shutdown)))
  {
    TurnKeeps(s, Apply(s, StopDone(shutdown)));
  }

  lemma KeepsInv(s: State, a: Action)
    requires Inv(s) && Enabled(s, a)
    ensures Inv(Apply(s, a))
  {
    KeepsBase(s, a);
    match a
    case Overwrite => OverwriteKeeps(s);
    case FinishBuild => BuildKeeps(s);
    case Launch => LaunchKeeps(s);
    case StartDone(observed) => FinishKeeps(s, observed);
    case Thread(b) => ThreadKeeps(s, b);
    case Poll(b, ready) => PollKeeps(s, b, ready);
    case Ready(peer) =>
      if peer.Vsock? && peer.cid in s.pending {
        ReadyKeeps(s, peer.cid);
      }
    case StopDone(shutdown) => StopKeeps(s, shutdown);
    case _ => SearchKeeps(s, a);
  }

  lemma {:induction false} RunKeepsInv(s: State, acts: seq<Action>)
    requires Inv(s) && Exec(s, acts).Some?
    ensures Inv(Exec(s, acts).value)
    decreases |acts|
  {
    if acts != [] {
      RunKeepsInv(s, acts[..|acts| - 1]);
      KeepsInv(Exec(s, acts[..|acts| - 1]).value, acts[|acts| - 1]);
    }
  }

  lemma ReachableInv(s: State)
    requires Reachable(s)
    ensures Inv(s)
  {
    var acts :| Exec(Init(), acts) == Some(s);
    RunKeepsInv(Init(), acts);
  }
}
