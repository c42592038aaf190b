/** What every interleaving keeps as long as no import clobbers a started VM and no start is misled: the builder a
    thread works on exists. */
module LifecycleOwnership {
  import opened Options
  import opened CidPool
  import opened VmStates
  import opened VmRegistry
  import opened QemuBuilder
  import opened StartupListener
  import opened Lifecycle
  import opened LifecycleBase
  import opened LifecycleSafety

  /** An import whose deletion is about to hit an instance that has been started. */
  predicate Clobbers(s: State, a: Action) {
    a.Overwrite? && s.server.Overwriting? && Busy(s, s.server.name)
  }

  /** A start that is about to launch a thread where no builder stands. */
  predicate Misleads(s: State, a: Action) {
    a.Launch? && s.server.Inserted? && At(s, s.server.index).None?
  }

  /** The thread has a use for its builder ahead of it. */
  predicate NeedsBuilder(pc: ThreadPc) {
    !pc.NoThread? && !pc.LateReleasing? && !pc.Ended?
  }

  ghost predicate Alive(s: State) {
    && !s.faults.thread
    && (forall b: nat :: InVm(s, b) && NeedsBuilder(s.vms[b].thread) ==> s.vms[b].live)
  }

  /** A thread's deletion destroys the builder of that thread alone. */
  lemma DeletingKeepsAlive(s: State, b: nat)
    requires Inv(s) && Alive(s) && ThreadReady(s, b) && (s.vms[b].thread.Deleting? || s.vms[b].thread.Failing?)
    ensures Alive(ThreadNext(s, b))
  {
    DeleteDestroys(s, b);
    DeletingStep(s, b);
  }

  lemma ThreadKeepsAlive(s: State, b: nat)
    requires Inv(s) && Alive(s) && ThreadReady(s, b)
    ensures Alive(ThreadNext(s, b))
  {
    assert ThreadOk(s, b);
    if s.vms[b].thread.Deleting? || s.vms[b].thread.Failing? {
      DeletingKeepsAlive(s, b);
    }
  }

  lemma OverwriteKeepsAlive(s: State)
    requires Inv(s) && Alive(s) && s.server.Overwriting? && !Busy(s, s.server.name)
    ensures Alive(Apply(s, Overwrite))
  {
    var i := Find(s.vmis, s.server.name);
    if i < |s.vmis| {
      assert s.vmis[i] in s.vmis;
      UnstartedHasNoThread(s, s.vmis[i].id);
      DeleteDestroys(s, s.vmis[i].id);
    }
  }

  lemma LaunchKeepsAlive(s: State)
    requires Inv(s) && Alive(s) && s.server.Inserted? && At(s, s.server.index).Some?
    ensures Alive(Apply(s, Launch))
  {
    assert s.vmis[s.server.index] in s.vmis;
  }

  lemma RequestKeepsAlive(s: State, a: Action)
    requires Inv(s) && Alive(s) && Enabled(s, a)
    requires a.Import? || a.ImportTest? || a.Start? || a.FinishBuild? || a.Insert? || a.StartDone? || a.StopReq?
    ensures Alive(Apply(s, a))
  {
    if a.FinishBuild? {
      BuildEffect(s);
    }
  }

  lemma OtherKeepsAlive(s: State, a: Action)
    requires Inv(s) && Alive(s) && Enabled(s, a) && (a.Poll? || a.Ready?)
    ensures Alive(Apply(s, a))
  {
  }

  lemma StopKeepsAlive(s: State, shutdown: bool)
    requires Inv(s) && Alive(s) && s.server.StoppingAt?
    ensures Alive(Apply(s, StopDone(shutdown)))
  {
  }

  lemma KeepsAlive(s: State, a: Action)
    requires Inv(s) && Alive(s) && Enabled(s, a) && !Clobbers(s, a) && !Misleads(s, a)
    ensures Alive(Apply(s, a))
  {
    match a
    case Overwrite => OverwriteKeepsAlive(s);
    case Launch => LaunchKeepsAlive(s);
    case Thread(b) => ThreadKeepsAlive(s, b);
    case StopDone(shutdown) => StopKeepsAlive(s, shutdown);
    case Poll(_, _) => OtherKeepsAlive(s, a);
    case Ready(_) => OtherKeepsAlive(s, a);
    case _ => RequestKeepsAlive(s, a);
  }

  lemma FaultsRecorded(s: State, a: Action)
    requires Enabled(s, a)
    ensures Apply(s, a).faults.clobbered <==> s.faults.clobbered || Clobbers(s, a)
    ensures Apply(s, a).faults.misled <==> s.faults.misled || Misleads(s, a)
  {
  }

  lemma {:induction false} RunKeepsAlive(acts: seq<Action>)
    requires Exec(Init(), acts).Some?
    requires !Exec(Init(), acts).value.faults.clobbered && !Exec(Init(), acts).value.faults.misled
    ensures Alive(Exec(Init(), acts).value)
    decreases |acts|
  {
    if acts != [] {
      var t, a := Exec(Init(), acts[..|acts| - 1]).value, acts[|acts| - 1];
      FaultsRecorded(t, a);
      RunKeepsAlive(acts[..|acts| - 1]);
      RunKeepsInv(Init(), acts[..|acts| - 1]);
      KeepsAlive(t, a);
    }
  }

  /** `s` is where some run leads in which no import clobbers a started VM and no start is misled. */
  ghost predicate SafelyReached(s: State) {
    Reachable(s) && !s.faults.clobbered && !s.faults.misled
  }

  lemma SafelyReachedAlive(s: State)
    requires SafelyReached(s)
    ensures Inv(s) && Alive(s)
  {
    var acts :| Exec(Init(), acts) == Some(s);
    RunKeepsInv(Init(), acts);
    RunKeepsAlive(acts);
  }
}
