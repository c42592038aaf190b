/** What the lifecycle promises of every run, read off its invariants. */
module LifecycleTheorems {
  import opened Options
  import opened CidPool
  import opened VmStates
  import opened VmRegistry
  import opened QemuBuilder
  import opened StartupListener
  import opened Lifecycle
  import opened LifecycleBase
  import opened LifecycleSafety
  import opened LifecycleOwnership

  // ---------------------------------------------------------------- VM threads own their entries

  /** In every run, registry names are pairwise distinct and the registry lists exactly the builders that exist, but
      for one the server thread is about to insert. */
  lemma NamesStayDistinct(s: State)
    requires Reachable(s)
    ensures DistinctNames(s.vmis)
    ensures forall b: nat :: InVm(s, b) ==> (Entry(b, s.vms[b].name) in s.vmis <==> s.vms[b].live && !InHand(s, b))
  {
    ReachableBase(s);
  }

  /** As long as no import clobbers a started VM and no start is misled, no thread touches a builder or a latch that is
      not there. */
  lemma ThreadsStayValid(s: State, b: nat)
    requires SafelyReached(s) && ThreadReady(s, b)
    ensures !s.faults.thread && !ThreadNext(s, b).faults.thread
    ensures s.vms[b].live <==> !s.vms[b].thread.LateReleasing?
  {
    SafelyReachedAlive(s);
    KeepsAlive(s, Thread(b));
    assert ThreadOk(s, b);
  }

  predicate HasThread(v: Vm) {
    v.live && !v.thread.NoThread? && !v.thread.Ended?
  }

  /** What the deletion of an import does to VM `b`, which has a thread. */
  lemma OverwriteSpares(s: State, b: nat)
    requires Inv(s) && s.server.Overwriting? && InVm(s, b) && HasThread(s.vms[b])
    ensures var t := Apply(s, Overwrite);
      var hit := Busy(s, s.server.name) && s.vms[b].name == s.server.name;
      InVm(t, b) && if hit then t.vms[b] == s.vms[b].(stopped := true, live := false)
                    else t.vms[b] == s.vms[b] && Entry(b, s.vms[b].name) in t.vmis
  {
    UnstartedHasNoThread(s, b);
    EntryOf(s, b);
    var i := Find(s.vmis, s.server.name);
    if i < |s.vmis| {
      assert s.vmis[i] in s.vmis;
      DeleteDestroys(s, s.vmis[i].id);
    }
  }

  /** In every run, the deletion of an import frees its name and nothing else, and the import goes on to build what it
      was asked for. */
  lemma OverwriteFreesName(s: State)
    requires Reachable(s) && s.server.Overwriting?
    ensures var t := Apply(s, Overwrite);
      && t.server == Building(s.server.name, s.server.env, ForImport)
      && (forall e :: e in t.vmis <==> e in s.vmis && e.name != s.server.name)
      && (forall b: nat :: InVm(s, b) && s.vms[b].name != s.server.name ==> InVm(t, b) && t.vms[b] == s.vms[b])
  {
    ReachableBase(s);
    var i := Find(s.vmis, s.server.name);
    if i < |s.vmis| {
      assert s.vmis[i] in s.vmis;
      DeleteDestroys(s, s.vmis[i].id);
    }
  }

  /** The steps of an import or a start, up to the launch of its own thread. */
  predicate OfRequest(a: Action) {
    a.Import? || a.ImportTest? || a.Overwrite? || a.Start? || a.FinishBuild? || a.Insert? || a.Launch?
  }

  /** In every run, a step of a request spares an instance that has a thread exactly unless it is a deletion by that
      instance's name although the instance has been started. */
  lemma ImportSparesThreads(s: State, a: Action, b: nat)
    requires Reachable(s) && Enabled(s, a) && OfRequest(a) && InVm(s, b) && HasThread(s.vms[b])
    ensures var t := Apply(s, a);
      InVm(t, b) && t.vms[b] == s.vms[b] && Entry(b, s.vms[b].name) in t.vmis <==>
      !(Clobbers(s, a) && s.vms[b].name == s.server.name)
  {
    ReachableInv(s);
    EntryOf(s, b);
    if a.Overwrite? {
      OverwriteSpares(s, b);
    } else if a.FinishBuild? {
      BuildEffect(s);
    }
  }

  /** A clobbering deletion is fatal: it destroys a builder whose thread goes on, and that thread's next step touches
      what is gone. */
  lemma ClobberFaults(s: State) returns (b: nat)
    requires Reachable(s) && Clobbers(s, Overwrite)
    ensures InVm(s, b) && HasThread(s.vms[b]) && s.vms[b].name == s.server.name
    ensures var t := Apply(s, Overwrite); ThreadReady(t, b) && !t.vms[b].live && ThreadNext(t, b).faults.thread
  {
    ReachableInv(s);
    var i := Find(s.vmis, s.server.name);
    b := s.vmis[i].id;
    assert s.vmis[i] in s.vmis && ThreadOk(s, b);
    OverwriteSpares(s, b);
  }

  /** The thread step removes the entry of `b`, destroys its builder and touches no other VM. */
  ghost predicate RemovesExactly(s: State, t: State, b: nat)
    requires InVm(s, b)
  {
    var i := Find(s.vmis, s.vms[b].name);
    && i < |s.vmis| && s.vmis[i] == Entry(b, s.vms[b].name) && t.vmis == Remove(s.vmis, i)
    && InVm(t, b) && !t.vms[b].live
    && (forall c: nat :: InVm(s, c) && c != b ==> InVm(t, c) && t.vms[c] == s.vms[c])
  }

  lemma OwnDeletion(s: State, b: nat)
    requires Inv(s) && ThreadReady(s, b) && (s.vms[b].thread.Deleting? || s.vms[b].thread.Failing?) && s.vms[b].live
    ensures RemovesExactly(s, ThreadNext(s, b), b)
  {
    DeleteDestroys(s, b);
    DeletingStep(s, b);
  }

  /** In every run, the deletion by name at the end of a thread removes exactly the instance that thread runs if and
      only if that instance still exists; as long as no import clobbers and no start is misled, it does. */
  lemma ThreadDeletesOwn(s: State, b: nat)
    requires Reachable(s) && ThreadReady(s, b) && (s.vms[b].thread.Deleting? || s.vms[b].thread.Failing?)
    ensures RemovesExactly(s, ThreadNext(s, b), b) <==> s.vms[b].live
    ensures SafelyReached(s) ==> s.vms[b].live
  {
    ReachableInv(s);
    if s.vms[b].live {
      OwnDeletion(s, b);
    }
    assert Entry(b, s.vms[b].name) in s.vmis ==> s.vms[b].live;
    if SafelyReached(s) {
      SafelyReachedAlive(s);
    }
  }

  // ---------------------------------------------------------------- states

  /** The state stays, or moves to the next of Empty, Created, Booting, Running. */
  predicate Advances(v: Vm, w: Vm) {
    w.state == v.state || (Number(w.state) == Number(v.state) + 1 && Number(w.state) <= Number(Running))
  }

  lemma RequestAdvances(s: State, a: Action, b: nat)
    requires Inv(s) && Enabled(s, a) && OfRequest(a) && InVm(s, b)
    ensures InVm(Apply(s, a), b) && Advances(s.vms[b], Apply(s, a).vms[b])
  {
    if a.FinishBuild? {
      BuildEffect(s);
    }
  }

  lemma ThreadAdvances(s: State, c: nat, b: nat)
    requires Inv(s) && ThreadReady(s, c) && InVm(s, b)
    ensures InVm(ThreadNext(s, c), b) && Advances(s.vms[b], ThreadNext(s, c).vms[b])
  {
    assert ThreadOk(s, c);
  }

  lemma OtherAdvances(s: State, a: Action, b: nat)
    requires Inv(s) && Enabled(s, a) && InVm(s, b) && !a.Thread? && !OfRequest(a)
    ensures InVm(Apply(s, a), b) && Advances(s.vms[b], Apply(s, a).vms[b])
  {
    if a.Ready? && a.peer.Vsock? && a.peer.cid in s.pending {
      assert Waiter(s, a.peer.cid, s.pending[a.peer.cid]);
    }
  }

  lemma StepAdvances(s: State, a: Action, b: nat)
    requires Inv(s) && Enabled(s, a) && InVm(s, b)
    ensures InVm(Apply(s, a), b) && Advances(s.vms[b], Apply(s, a).vms[b])
  {
    if a.Thread? {
      ThreadAdvances(s, a.vm, b);
    } else if OfRequest(a) {
      RequestAdvances(s, a, b);
    } else {
      OtherAdvances(s, a, b);
    }
  }

  /** In every run, over every action, the state of a VM stays or moves one step along Empty, Created, Booting,
      Running. */
  lemma StatesOnlyAdvance(s: State, a: Action, b: nat)
    requires Reachable(s) && Enabled(s, a) && InVm(s, b)
    ensures InVm(Apply(s, a), b) && Advances(s.vms[b], Apply(s, a).vms[b])
  {
    ReachableInv(s);
    StepAdvances(s, a, b);
  }

  lemma ThreadMarks(s: State, c: nat, b: nat)
    requires Inv(s) && ThreadReady(s, c) && InVm(s, b)
    ensures var t := ThreadNext(s, c);
      t.vms[b].mark == if s.vms[b].state == Created && t.vms[b].state == Booting then |s.history| else s.vms[b].mark
  {
    assert ThreadOk(s, c);
    if s.vms[c].thread.Deleting? || s.vms[c].thread.Failing? {
      DeletingStep(s, c);
    }
  }

  /** In every run, the mark of a VM is the number of listener events there were when it went from Created to Booting:
      that action sets it, and no other changes it. */
  lemma MarkIsBoot(s: State, a: Action, b: nat)
    requires Reachable(s) && Enabled(s, a) && InVm(s, b)
    ensures var t := Apply(s, a);
      InVm(t, b) &&
      t.vms[b].mark == if s.vms[b].state == Created && t.vms[b].state == Booting then |s.history| else s.vms[b].mark
  {
    ReachableInv(s);
    StepAdvances(s, a, b);
    match a
    case Thread(c) => ThreadMarks(s, c, b);
    case FinishBuild => BuildEffect(s);
    case _ =>
  }

  /** Which requests go on from their search: a start with a name that is not registered, an import with any name, a
      stop with a registered one; an import or a stop that finds its name goes on with the place of that instance. */
  lemma SearchIsExact(s: State, name: string, env: BuildEnv, waits: bool)
    requires Reachable(s) && s.server.Idle?
    ensures var t := Apply(s, Start(name, env, waits));
      t == if name != "" && Absent(s, name) then s.(server := Building(name, env, ForStart(waits))) else s
    ensures var t := Apply(s, Import(name, env));
      if name == "" then t == s
      else if Absent(s, name) then t == s.(server := Building(name, env, ForImport))
      else
        && t == s.(server := t.server) && t.server.Testing? && t.server.name == name && t.server.env == env
        && t.server.index < |s.vmis| && s.vmis[t.server.index].name == name
    ensures var t := Apply(s, StopReq(name));
      if Absent(s, name) then t == s
      else
        && t == s.(server := t.server) && t.server.StoppingAt?
        && t.server.index < |s.vmis| && s.vmis[t.server.index].name == name
  {
    var i := Find(s.vmis, name);
    if i < |s.vmis| {
      assert s.vmis[i] in s.vmis;
    }
  }

  /** A build that fails, at whatever stage, changes nothing: not the registry, not the pool. */
  lemma FailedStartLeavesNoTrace(s: State)
    requires s.server.Building? && !Build(FRESH, s.server.env, s.bits).2
    ensures Apply(s, FinishBuild) == s.(server := Idle)
  {
    BuildEffect(s);
  }

  // ---------------------------------------------------------------- readiness

  /** The answer of the start that returns in `s`. */
  function Answer(s: State, observed: bool): bool
    requires Enabled(s, StartDone(observed))
  {
    var reports := Apply(s, StartDone(observed)).reports;
    reports[|reports| - 1].ok
  }

  /** In every run, a start that waits may report success without a ready guest, for some outcome of reading a builder
      that is not there, exactly if it was misled or its wait ended unready, and the guest had not reported after
      all. */
  lemma ReadyWaitExact(s: State)
    requires Reachable(s) && Enabled(s, StartDone(true)) && InVm(s, s.server.vm) && s.vms[s.server.vm].waits
    ensures var b := s.server.vm;
      (forall observed :: Answer(s, observed) ==> SawReady(s, b)) <==>
      (!s.server.Misled? && s.vms[b].thread != Ended(false)) || SawReady(s, b)
  {
    ReachableInv(s);
    var b := s.server.vm;
    assert ThreadOk(s, b) && Heard(s, b);
    if s.server.Misled? || s.vms[b].thread == Ended(false) {
      assert Answer(s, true);
    }
  }

  /** With waiting asked for, in every run, a start that reported success had its guest report ready, under this VM's
      cid, after the VM reached Booting; or it read the state of a builder destroyed by its failed wait; or it was
      misled and launched no thread of that VM. */
  lemma ReadyWaitSafety(s: State, r: Report)
    requires Reachable(s) && r in s.reports && r.ok
    ensures InVm(s, r.vm)
    ensures s.vms[r.vm].waits ==>
      SawReady(s, r.vm) || (!r.sawLive && (s.vms[r.vm].thread == Ended(false) || s.vms[r.vm].thread == NoThread))
  {
    ReachableInv(s);
    assert Fair(s, r) && ThreadOk(s, r.vm) && Heard(s, r.vm);
  }

  /** What a start that launched its thread reports, in every run: from a builder that exists, success exactly if the
      thread is past marking the VM running, which only a start without waiting can miss; from one that does not,
      anything.  As long as no import clobbers and no start is misled, the builder exists exactly if the thread has
      not ended. */
  lemma ReportExact(s: State, observed: bool)
    requires Reachable(s) && Enabled(s, StartDone(observed)) && s.server.Awaiting?
    ensures var v := s.vms[s.server.vm];
      && (v.live ==> (Answer(s, observed) <==> !v.thread.Readying?))
      && (v.thread.Readying? ==> !v.waits)
      && (!v.live ==> Answer(s, observed) == observed)
      && (SafelyReached(s) ==> (v.live <==> !v.thread.Ended?))
  {
    ReachableInv(s);
    assert ThreadOk(s, s.server.vm);
    if SafelyReached(s) {
      SafelyReachedAlive(s);
    }
  }

  // ---------------------------------------------------------------- the listener

  /** In every run, the pending callbacks are exactly those registered with nothing registered or reported under the
      same id since, and each VM's callback fires at most once. */
  lemma PendingIsExact(s: State, cid: nat, b: nat)
    requires Reachable(s)
    ensures cid in s.pending && s.pending[cid] == b <==> StillWaits(s.history, cid, b)
    ensures Adds(s.history, b) <= 1 && Fires(s.history, b) <= Adds(s.history, b)
  {
    ReachableBase(s);
    OutstandingExact(s.history, cid, b);
    FiresAtMostOnce(s.history, b);
  }

  /** In every run, a callback left pending belongs to a VM still waiting, or to one whose wait ended unready; as long as
      no import clobbers and no start is misled, that is the only way its builder can be gone. */
  lemma LeftoversAreUnready(s: State, cid: nat)
    requires Reachable(s) && cid in s.pending
    ensures var w := s.pending[cid];
      && InVm(s, w) && s.vms[w].cid == cid
      && (s.vms[w].thread.Polling? || WaitEndedUnready(s.vms[w].thread))
      && (SafelyReached(s) ==>
            (!s.vms[w].live <==> s.vms[w].thread.LateReleasing? || s.vms[w].thread == Ended(false)))
  {
    ReachableInv(s);
    assert Waiter(s, cid, s.pending[cid]) && ThreadOk(s, s.pending[cid]);
    if SafelyReached(s) {
      SafelyReachedAlive(s);
    }
  }

  /** A report of a guest fires a callback on a builder that is gone exactly if that guest's wait had ended unready and
      its thread had deleted the builder. */
  lemma LateReadyExact(s: State, cid: nat)
    requires SafelyReached(s) && cid in s.pending && !s.faults.lateReady
    ensures var w := s.pending[cid];
      && InVm(s, w)
      && (Apply(s, Ready(Vsock(cid))).faults.lateReady <==>
            s.vms[w].thread.LateReleasing? || s.vms[w].thread == Ended(false))
  {
    LeftoversAreUnready(s, cid);
  }
}
