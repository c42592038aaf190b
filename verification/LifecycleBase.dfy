/** What every interleaving of requests, VM threads and listener calls keeps, without any condition: the registry
    lists exactly the existing builders under distinct names, and the listener's map follows its history. */
module LifecycleBase {
  import opened Options
  import opened CidPool
  import opened VmStates
  import opened VmRegistry
  import opened QemuBuilder
  import opened StartupListener
  import opened Lifecycle

  ghost predicate Absent(s: State, name: string) {
    forall e :: e in s.vmis ==> e.name != name
  }

  /** The server thread holds builder `b`, not yet inserted. */
  predicate InHand(s: State, b: nat) {
    s.server.Built? && s.server.vm == b
  }

  /** The registry lists exactly the live builders, under distinct names, but for one about to be inserted. */
  ghost predicate Registered(s: State) {
    && DistinctNames(s.vmis)
    && (forall e :: e in s.vmis ==>
          InVm(s, e.id) && s.vms[e.id].live && s.vms[e.id].name == e.name && !InHand(s, e.id))
    && (forall b: nat :: InVm(s, b) && s.vms[b].live && !InHand(s, b) ==> Entry(b, s.vms[b].name) in s.vmis)
  }

  /** What the server thread knows of the VM its request is about: the name of a build is free until the insertion; the
      place of an insertion is the last, and holds the new VM unless an entry was deleted since. */
  ghost predicate Placed(s: State) {
    && (s.server.Building? ==> Absent(s, s.server.name))
    && (s.server.Built? || s.server.Inserted? || s.server.Misled? ==>
          InVm(s, s.server.vm) && s.vms[s.server.vm].thread.NoThread?)
    && (s.server.Built? ==> s.vms[s.server.vm].live && Absent(s, s.vms[s.server.vm].name))
    && (s.server.Inserted? ==>
          |s.vmis| <= s.server.index + 1 && (s.server.index < |s.vmis| ==> s.vmis[s.server.index].id == s.server.vm))
    && (s.server.Misled? ==> s.faults.misled)
  }

  /** Whether the thread is past its registration with the listener. */
  predicate Added?(pc: ThreadPc) {
    pc.Polling? || pc.Releasing? || pc.Exiting? || pc.Deleting? || pc.Failing? || pc.LateReleasing? || pc.Ended?
  }

  /** The map follows the history, in which every VM registered at most once. */
  ghost predicate Recorded(s: State) {
    && Lawful(s.history) && s.pending == Outstanding(s.history)
    && (forall b: nat :: Adds(s.history, b) <= if InVm(s, b) && Added?(s.vms[b].thread) then 1 else 0)
  }

  ghost predicate Base(s: State) {
    Registered(s) && Recorded(s) && Placed(s)
  }

  // ---------------------------------------------------------------- registry operations

  /** The index of a live VM's entry. */
  lemma EntryOf(s: State, b: nat)
    requires Registered(s) && InVm(s, b) && s.vms[b].live && !InHand(s, b)
    ensures var i := Find(s.vmis, s.vms[b].name); i < |s.vmis| && s.vmis[i] == Entry(b, s.vms[b].name)
  {
    var e := Entry(b, s.vms[b].name);
    var i :| 0 <= i < |s.vmis| && s.vmis[i] == e;
    FindIsUnique(s.vmis, i);
  }

  /** Deleting by the name of a live VM destroys that VM and nothing else. */
  lemma DeleteDestroys(s: State, b: nat)
    requires Registered(s) && InVm(s, b) && s.vms[b].live && !InHand(s, b)
    ensures var t := DeleteNamed(s, s.vms[b].name);
      var i := Find(s.vmis, s.vms[b].name);
      && i < |s.vmis| && s.vmis[i] == Entry(b, s.vms[b].name)
      && t == s.(vms := s.vms[b := s.vms[b].(stopped := true, live := false)],
                 vmis := Remove(s.vmis, i),
                 bits := Release(s.bits, s.vms[b].cid))
      && Registered(t) && Absent(t, s.vms[b].name)
      && (forall e :: e in t.vmis <==> e in s.vmis && e.id != b)
  {
    EntryOf(s, b);
    var i := Find(s.vmis, s.vms[b].name);
    DeleteIsExact(s.vmis, i);
    var t := DeleteNamed(s, s.vms[b].name);
    assert t.vms == s.vms[b := s.vms[b].(stopped := true, live := false)];
    forall e | e in s.vmis && e.id == b
      ensures e == s.vmis[i]
    {
    }
  }

  /** The stops of the lifecycle, explicit and by destruction, change the pool as a stop of any builder with that id. */
  lemma StopsAgree(s: State, b: nat, builder: Builder)
    requires InVm(s, b) && builder.cid == s.vms[b].cid
    ensures StopVm(s, b).bits == QemuBuilder.Stop(builder, s.bits).1
    ensures Registered(s) && s.vms[b].live && !InHand(s, b) ==>
      DeleteNamed(s, s.vms[b].name).bits == QemuBuilder.Stop(builder, s.bits).1
  {
    if Registered(s) && s.vms[b].live && !InHand(s, b) {
      DeleteDestroys(s, b);
    }
  }

  /** A failed build leaves no trace; a successful one makes one fresh VM holding an id that was available. */
  lemma BuildEffect(s: State)
    requires s.server.Building?
    ensures var t, cid := Apply(s, FinishBuild), Granted(s.bits, s.server.env.cid);
      var Building(name, env, job) := s.server;
      if Build(FRESH, env, s.bits).2 then
        && FIRST_CID <= cid < MAX_CID && s.bits[cid]
        && t == s.(vms := s.vms + [Vm(name, cid, job.ForStart? && job.waits, Created, false, true, NoThread, 0)],
                   bits := s.bits[cid := false], server := Built(|s.vms|, job))
      else t == s.(server := Idle)
  {
    var (b, bits, ok) := Build(FRESH, s.server.env, s.bits);
    if ok {
      BuildTakesOne(s.server.env, s.bits);
    } else {
      FailedBuildConserves(s.server.env, s.bits);
    }
  }

  // ---------------------------------------------------------------- every action keeps it

  /** A VM as far as the registry is concerned. */
  predicate SameVm(v: Vm, w: Vm) {
    w.live == v.live && w.name == v.name && (Added?(v.thread) ==> Added?(w.thread))
  }

  /** A step that leaves registry, listener and builders' existence alone. */
  lemma SameBase(s: State, t: State)
    requires Base(s) && t.vmis == s.vmis && |t.vms| == |s.vms| && t.history == s.history && t.pending == s.pending
    requires forall b: nat :: InVm(s, b) ==> SameVm(s.vms[b], t.vms[b])
    requires Placed(t) && (t.server == s.server || (!s.server.Built? && !t.server.Built?))
    ensures Base(t)
  {
    assert forall b: nat :: InHand(t, b) == InHand(s, b);
  }

  lemma DeleteKeepsBase(s: State, name: string)
    requires Base(s)
    ensures var d := DeleteNamed(s, name); Base(d) && Absent(d, name)
  {
    var i := Find(s.vmis, name);
    if i < |s.vmis| {
      assert s.vmis[i] in s.vmis;
      DeleteDestroys(s, s.vmis[i].id);
    }
  }

  lemma BuildKeepsBase(s: State)
    requires Base(s) && s.server.Building?
    ensures Base(Apply(s, FinishBuild))
  {
    var t := Apply(s, FinishBuild);
    BuildEffect(s);
    if |t.vms| > |s.vms| {
      assert !InVm(s, |s.vms|);
    } else {
      SameBase(s, t);
    }
  }

  lemma InsertKeepsBase(s: State)
    requires Base(s) && s.server.Built?
    ensures Enabled(s, Insert) && Base(Apply(s, Insert))
  {
    var t := Apply(s, Insert);
    assert forall e :: e in t.vmis <==> e in s.vmis || e == Entry(s.server.vm, s.vms[s.server.vm].name);
  }

  lemma HearKeepsBase(s: State, t: State, e: Event)
    requires Base(s) && t.vmis == s.vmis && |t.vms| == |s.vms|
    requires t.history == s.history + [e] && t.pending == Next(s.pending, e) && t.server == s.server
    requires forall b: nat :: InVm(s, b) ==>
      SameVm(s.vms[b], t.vms[b]) && (s.vms[b].thread.NoThread? ==> t.vms[b].thread.NoThread?)
    requires s.faults.misled ==> t.faults.misled
    requires e.Reported? ==> e.cid in s.pending && s.pending[e.cid] == e.waiter
    requires e.Added? ==> InVm(s, e.waiter) && !Added?(s.vms[e.waiter].thread) && Added?(t.vms[e.waiter].thread)
    ensures Base(t)
  {
    Append(s.history, e);
    assert forall b: nat :: InHand(t, b) == InHand(s, b);
  }

  /** A step that changes at most VM `b`, and neither its name nor its existence. */
  lemma OwnStepKeepsBase(s: State, t: State, b: nat)
    requires Base(s) && InVm(s, b) && |t.vms| == |s.vms| && t.vms == s.vms[b := t.vms[b]]
    requires t.vmis == s.vmis && t.history == s.history && t.pending == s.pending
    requires t.server == s.server || (s.server.Awaiting? && t.server.Awaiting?)
    requires SameVm(s.vms[b], t.vms[b]) && !s.vms[b].thread.NoThread? && (s.faults.misled ==> t.faults.misled)
    ensures Base(t)
  {
    SameBase(s, t);
  }

  lemma DeleteOwnKeepsBase(s: State, b: nat, pc: ThreadPc)
    requires Base(s) && InVm(s, b) && Added?(pc) && !s.vms[b].thread.NoThread?
    ensures Base(DeleteOwn(s, b, pc))
  {
    DeleteKeepsBase(s, s.vms[b].name);
    OwnStepKeepsBase(DeleteNamed(s, s.vms[b].name), DeleteOwn(s, b, pc), b);
  }

  /** What the deletion at the end of a thread is. */
  lemma DeletingStep(s: State, b: nat)
    requires ThreadReady(s, b) && (s.vms[b].thread.Deleting? || s.vms[b].thread.Failing?)
    ensures ThreadNext(s, b) ==
      DeleteOwn(Touched(s, b), b, if s.vms[b].thread.Deleting? then Ended(true) else LateReleasing)
  {
  }

  lemma DeletingKeepsBase(s: State, b: nat)
    requires Base(s) && ThreadReady(s, b) && (s.vms[b].thread.Deleting? || s.vms[b].thread.Failing?)
    ensures Base(ThreadNext(s, b))
  {
    var f, pc := Touched(s, b), if s.vms[b].thread.Deleting? then Ended(true) else LateReleasing;
    SameBase(s, f);
    DeleteOwnKeepsBase(f, b, pc);
    DeletingStep(s, b);
  }

  lemma RegisteringKeepsBase(s: State, b: nat)
    requires Base(s) && ThreadReady(s, b) && s.vms[b].thread.Registering?
    ensures Base(ThreadNext(s, b))
  {
    HearKeepsBase(s, ThreadNext(s, b), Added(s.vms[b].cid, b));
  }

  lemma CountingKeepsBase(s: State, b: nat)
    requires Base(s) && ThreadReady(s, b)
    requires s.vms[b].thread.Counting? || s.vms[b].thread.Releasing? || s.vms[b].thread.LateReleasing?
    ensures Base(ThreadNext(s, b))
  {
    OwnStepKeepsBase(s, ThreadNext(s, b), b);
  }

  lemma RunningKeepsBase(s: State, b: nat)
    requires Base(s) && ThreadReady(s, b)
    requires s.vms[b].thread.Launching? || s.vms[b].thread.Readying? || s.vms[b].thread.Exiting?
    ensures Base(ThreadNext(s, b))
  {
    OwnStepKeepsBase(s, ThreadNext(s, b), b);
  }

  lemma ThreadKeepsBase(s: State, b: nat)
    requires Base(s) && ThreadReady(s, b)
    ensures Base(ThreadNext(s, b))
  {
    match s.vms[b].thread
    case Registering => RegisteringKeepsBase(s, b);
    case Deleting => DeletingKeepsBase(s, b);
    case Failing => DeletingKeepsBase(s, b);
    case Launching => RunningKeepsBase(s, b);
    case Readying => RunningKeepsBase(s, b);
    case Exiting => RunningKeepsBase(s, b);
    case _ => CountingKeepsBase(s, b);
  }

  lemma ListenerKeepsBase(s: State, peer: Peer)
    requires Base(s)
    ensures Base(Apply(s, Ready(peer)))
  {
    if peer.Vsock? && peer.cid in s.pending {
      HearKeepsBase(s, Apply(s, Ready(peer)), Reported(peer.cid, s.pending[peer.cid]));
    }
  }

  lemma OverwriteKeepsBase(s: State)
    requires Base(s) && s.server.Overwriting?
    ensures Base(Apply(s, Overwrite))
  {
    DeleteKeepsBase(s, s.server.name);
    SameBase(DeleteNamed(s, s.server.name), Apply(s, Overwrite));
  }

  lemma LaunchKeepsBase(s: State)
    requires Base(s) && s.server.Inserted?
    ensures Base(Apply(s, Launch))
  {
    SameBase(s, Apply(s, Launch));
  }

  lemma StopKeepsBase(s: State, a: Action)
    requires Base(s) && Enabled(s, a) && a.StopDone?
    ensures Base(Apply(s, a))
  {
    SameBase(s, Apply(s, a));
  }

  lemma KeepsBase(s: State, a: Action)
    requires Base(s) && Enabled(s, a)
    ensures Base(Apply(s, a))
  {
    match a
    case Overwrite => OverwriteKeepsBase(s);
    case FinishBuild => BuildKeepsBase(s);
    case Insert => InsertKeepsBase(s);
    case Launch => LaunchKeepsBase(s);
    case Thread(b) => ThreadKeepsBase(s, b);
    case Ready(peer) => ListenerKeepsBase(s, peer);
    case Poll(b, _) => OwnStepKeepsBase(s, Apply(s, a), b);
    case StopDone(_) => StopKeepsBase(s, a);
    case _ => SameBase(s, Apply(s, a));
  }

  lemma {:induction false} RunKeepsBase(s: State, acts: seq<Action>)
    requires Base(s) && Exec(s, acts).Some?
    ensures Base(Exec(s, acts).value)
    decreases |acts|
  {
    if acts != [] {
      RunKeepsBase(s, acts[..|acts| - 1]);
      KeepsBase(Exec(s, acts[..|acts| - 1]).value, acts[|acts| - 1]);
    }
  }

  lemma ReachableBase(s: State)
    requires Reachable(s)
    ensures Base(s)
  {
    var acts :| Exec(Init(), acts) == Some(s);
    RunKeepsBase(Init(), acts);
  }
}
