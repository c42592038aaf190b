/** What a remembered index denotes: an import between its search and its state test, a stop between its search and the
    stop, and a start between its insertion and the launch, keep an index into a registry that VM threads shrink
    meanwhile. */
module LifecycleDrift {
  import opened Options
  import opened VmStates
  import opened VmRegistry
  import opened QemuBuilder
  import opened StartupListener
  import opened Lifecycle
  import opened LifecycleBase
  import opened LifecycleSafety
  import opened LifecycleOwnership

  /** The actions that are not of the server thread. */
  predicate OfOthers(a: Action) {
    a.Thread? || a.Poll? || a.Ready?
  }

  /** A VM thread deletes an entry. */
  predicate DeletesEntry(s: State, a: Action) {
    a.Thread? && InVm(s, a.vm) && (s.vms[a.vm].thread.Deleting? || s.vms[a.vm].thread.Failing?) &&
    Find(s.vmis, s.vms[a.vm].name) < |s.vmis|
  }

  /** A VM thread deletes the entry at `index` or one before it. */
  predicate Disturbs(s: State, a: Action, index: nat) {
    DeletesEntry(s, a) && Find(s.vmis, s.vms[a.vm].name) <= index
  }

  /** No action of the run from `s` disturbs `index`. */
  ghost predicate Quiet(s: State, acts: seq<Action>, index: nat)
    decreases |acts|
  {
    acts == [] ||
    (var t := Exec(s, acts[..|acts| - 1]);
     Quiet(s, acts[..|acts| - 1], index) && t.Some? && !Disturbs(t.value, acts[|acts| - 1], index))
  }

  /** How many entries VM threads delete in the run from `s`. */
  function Deletions(s: State, acts: seq<Action>): nat
    decreases |acts|
  {
    if acts == [] then 0
    else
      var t := Exec(s, acts[..|acts| - 1]);
      Deletions(s, acts[..|acts| - 1]) + if t.Some? && DeletesEntry(t.value, acts[|acts| - 1]) then 1 else 0
  }

  lemma DeletionShrinks(s: State, b: nat)
    requires Base(s) && ThreadReady(s, b) && (s.vms[b].thread.Deleting? || s.vms[b].thread.Failing?)
    ensures var t, j := ThreadNext(s, b), Find(s.vmis, s.vms[b].name);
      && t.server == s.server && |t.vms| == |s.vms|
      && t.vmis == if j < |s.vmis| then Remove(s.vmis, j) else s.vmis
  {
    DeletingStep(s, b);
    var j := Find(s.vmis, s.vms[b].name);
    if j < |s.vmis| {
      assert s.vmis[j] in s.vmis;
    }
  }

  /** While the server thread is elsewhere, the registry changes by the deletions of threads alone. */
  lemma RegistryShrinks(s: State, a: Action)
    requires Base(s) && Enabled(s, a) && OfOthers(a) && !s.server.Awaiting?
    ensures Apply(s, a).server == s.server && |Apply(s, a).vms| == |s.vms|
    ensures Apply(s, a).vmis ==
      if DeletesEntry(s, a) then Remove(s.vmis, Find(s.vmis, s.vms[a.vm].name)) else s.vmis
  {
    if a.Thread? && (s.vms[a.vm].thread.Deleting? || s.vms[a.vm].thread.Failing?) {
      DeletionShrinks(s, a.vm);
    }
  }

  /** The entry `e` stands at `index` in `vmis`, or it has moved below it or is gone. */
  predicate Stands(vmis: seq<Entry>, e: Entry, index: nat) {
    index < |vmis| && vmis[index] == e
  }

  ghost predicate Sank(vmis: seq<Entry>, e: Entry, index: nat) {
    forall k :: 0 <= k < |vmis| && vmis[k] == e ==> k < index
  }

  lemma RemoveShifts(vmis: seq<Entry>, e: Entry, index: nat, j: nat)
    requires DistinctNames(vmis) && j < |vmis|
    ensures Stands(vmis, e, index) && j > index ==> Stands(Remove(vmis, j), e, index)
    ensures Stands(vmis, e, index) && j <= index ==> Sank(Remove(vmis, j), e, index)
    ensures Sank(vmis, e, index) ==> Sank(Remove(vmis, j), e, index)
  {
    var r := Remove(vmis, j);
    assert forall k :: 0 <= k < |r| ==> r[k] == vmis[if k < j then k else k + 1];
    assert forall k, l :: 0 <= k < l < |vmis| ==> vmis[k] != vmis[l];
  }

  /** What one action of another thread does to the entry `e` remembered at `index`. */
  lemma EntryShifts(s: State, a: Action, e: Entry, index: nat)
    requires Base(s) && Enabled(s, a) && OfOthers(a) && !s.server.Awaiting?
    ensures var t := Apply(s, a);
      && t.server == s.server && |t.vms| == |s.vms| && (forall o :: o in t.vmis ==> o in s.vmis)
      && |t.vmis| + (if DeletesEntry(s, a) then 1 else 0) == |s.vmis|
      && (Stands(s.vmis, e, index) ==>
            if Disturbs(s, a, index) then Sank(t.vmis, e, index) else Stands(t.vmis, e, index))
      && (Sank(s.vmis, e, index) ==> Sank(t.vmis, e, index))
  {
    RegistryShrinks(s, a);
    if DeletesEntry(s, a) {
      RemoveShifts(s.vmis, e, index, Find(s.vmis, s.vms[a.vm].name));
    }
  }

  /** Over every stretch of other threads' actions, the entry found stands at its index exactly if no thread deleted
      that entry or one before it. */
  lemma {:induction false} StretchExact(s: State, acts: seq<Action>, index: nat)
    requires Base(s) && !s.server.Awaiting? && index < |s.vmis|
    requires Exec(s, acts).Some? && forall a :: a in acts ==> OfOthers(a)
    ensures var t, e := Exec(s, acts).value, s.vmis[index];
      && Base(t) && t.server == s.server && |t.vms| == |s.vms|
      && (forall o :: o in t.vmis ==> o in s.vmis) && |t.vmis| + Deletions(s, acts) == |s.vmis|
      && if Quiet(s, acts, index) then Stands(t.vmis, e, index) else Sank(t.vmis, e, index)
    decreases |acts|
  {
    if acts != [] {
      var a, rest := acts[|acts| - 1], acts[..|acts| - 1];
      StretchExact(s, rest, index);
      var t := Exec(s, rest).value;
      KeepsBase(t, a);
      EntryShifts(t, a, s.vmis[index], index);
    }
  }

  predicate Searches(a: Action, name: string) {
    (a.Import? || a.StopReq?) && a.name == name
  }

  /** In every run, from the search of an import to its state test, and from the search of a stop to the stop, the
      remembered index denotes the instance that was named if and only if no thread deleted that instance, or one
      before it; and it denotes nothing, so that its use is stray, if and only if as many were deleted as stood from
      it on. */
  lemma IndexDenotesNamed(s: State, a: Action, name: string, acts: seq<Action>)
    requires Reachable(s) && Enabled(s, a) && Searches(a, name) && name != "" && Find(s.vmis, name) < |s.vmis|
    requires Exec(Apply(s, a), acts).Some? && forall o :: o in acts ==> OfOthers(o)
    ensures var t, i := Exec(Apply(s, a), acts).value, Find(s.vmis, name);
      && (if a.Import? then t.server == Testing(i, name, a.env) else t.server == StoppingAt(i))
      && (At(t, i) == Some(s.vmis[i].id) <==> Quiet(Apply(s, a), acts, i))
      && (At(t, i) == None <==> Deletions(Apply(s, a), acts) >= |s.vmis| - i)
  {
    ReachableBase(s);
    KeepsBase(s, a);
    var i := Find(s.vmis, name);
    StretchExact(Apply(s, a), acts, i);
    var t, e := Exec(Apply(s, a), acts).value, s.vmis[i];
    assert e in s.vmis;
    assert i < |t.vmis| ==> t.vmis[i] in s.vmis;
  }

  lemma StopEffect(s: State, b: nat)
    requires s.server.StoppingAt? && InVm(s, b)
    ensures var u := Apply(s, StopDone(false));
      if At(s, s.server.index) == Some(b) then u == StopVm(s.(server := Idle), b)
      else InVm(u, b) && u.vms[b] == s.vms[b]
  {
  }

  /** A stop that is not answered by the guest stops the VM it named if no thread deleted that VM's entry or one before
      it meanwhile, and otherwise leaves that VM alone. */
  lemma StopHitsNamed(s: State, name: string, acts: seq<Action>)
    requires Reachable(s) && s.server.Idle? && name != "" && Find(s.vmis, name) < |s.vmis|
    requires Exec(Apply(s, StopReq(name)), acts).Some? && forall o :: o in acts ==> OfOthers(o)
    ensures var t, b := Exec(Apply(s, StopReq(name)), acts).value, s.vmis[Find(s.vmis, name)].id;
      && t.server.StoppingAt? && InVm(t, b)
      && var u := Apply(t, StopDone(false));
      if Quiet(Apply(s, StopReq(name)), acts, Find(s.vmis, name)) then u == StopVm(t.(server := Idle), b)
      else InVm(u, b) && u.vms[b] == t.vms[b]
  {
    IndexDenotesNamed(s, StopReq(name), name, acts);
    ReachableBase(s);
    assert s.vmis[Find(s.vmis, name)] in s.vmis;
    KeepsBase(s, StopReq(name));
    StretchExact(Apply(s, StopReq(name)), acts, Find(s.vmis, name));
    StopEffect(Exec(Apply(s, StopReq(name)), acts).value, s.vmis[Find(s.vmis, name)].id);
  }

  /** A stop that the guest answers leaves every VM, every id and the registry alone, wherever its index points. */
  lemma AnsweredStopSparesAll(s: State)
    requires s.server.StoppingAt?
    ensures var u := Apply(s, StopDone(true));
      u.vms == s.vms && u.bits == s.bits && u.vmis == s.vmis && u.server == Idle && u.faults == s.faults
  {
  }

  /** The state test of an import asks about the VM it named if no thread deleted that VM's entry or one before it. */
  lemma TestAsksNamed(s: State, name: string, env: BuildEnv, acts: seq<Action>, observed: bool)
    requires Reachable(s) && s.server.Idle? && name != "" && Find(s.vmis, name) < |s.vmis|
    requires Exec(Apply(s, Import(name, env)), acts).Some? && forall o :: o in acts ==> OfOthers(o)
    requires Quiet(Apply(s, Import(name, env)), acts, Find(s.vmis, name))
    ensures var t := Exec(Apply(s, Import(name, env)), acts).value;
      && t.server.Testing?
      && (Apply(t, ImportTest(observed)).server == Overwriting(name, env) <==> !Busy(t, name))
  {
    ReachableBase(s);
    KeepsBase(s, Import(name, env));
    var i := Find(s.vmis, name);
    StretchExact(Apply(s, Import(name, env)), acts, i);
    var t := Exec(Apply(s, Import(name, env)), acts).value;
    FindIsUnique(t.vmis, i);
    assert t.vmis[i] in t.vmis;
  }

  lemma LaunchEffect(s: State)
    requires Base(s) && s.server.Inserted?
    ensures var u, b := Apply(s, Launch), s.server.vm;
      if s.server.index < |s.vmis|
      then u == Set(s, b, s.vms[b].(thread := Launching)).(server := Awaiting(b, if s.vms[b].waits then 2 else 1))
      else u.server == Misled(b) && u.vms == s.vms && u.faults.misled
  {
    assert s.server.index < |s.vmis| ==> s.vmis[s.server.index] in s.vmis;
  }

  /** In every run, from the insertion of a start to the launch of its thread, the remembered place holds the new VM if
      and only if no thread deleted an entry since; then the thread is launched on that VM, and otherwise on none. */
  lemma LaunchHitsInserted(s: State, acts: seq<Action>)
    requires Reachable(s) && s.server.Built? && s.server.job.ForStart? && InVm(s, s.server.vm)
    requires Exec(Apply(s, Insert), acts).Some? && forall o :: o in acts ==> OfOthers(o)
    ensures var t, b := Exec(Apply(s, Insert), acts).value, s.server.vm;
      && t.server == Inserted(b, |s.vmis|) && InVm(t, b)
      && var u := Apply(t, Launch);
      if Deletions(Apply(s, Insert), acts) == 0
      then u == Set(t, b, t.vms[b].(thread := Launching)).(server := Awaiting(b, if t.vms[b].waits then 2 else 1))
      else u.server == Misled(b) && u.vms == t.vms && u.faults.misled
  {
    ReachableBase(s);
    KeepsBase(s, Insert);
    StretchExact(Apply(s, Insert), acts, |s.vmis|);
    LaunchEffect(Exec(Apply(s, Insert), acts).value);
  }

  // ---------------------------------------------------------------- runs without drift are safe

  /** An import's test is about to read the instance named, its deletion to hit no started VM, and a start's launch to
      find the instance inserted. */
  ghost predicate Aimed(s: State) {
    && (s.server.Testing? ==> s.server.index < |s.vmis| && s.vmis[s.server.index].name == s.server.name)
    && (s.server.Overwriting? ==> !Busy(s, s.server.name))
    && (s.server.Inserted? ==> s.server.index < |s.vmis|)
  }

  /** The action deletes an entry at or before an index that an import or a start is about to use. */
  predicate Drifts(s: State, a: Action) {
    (s.server.Testing? || s.server.Inserted?) && Disturbs(s, a, s.server.index)
  }

  /** A run in which no thread deletes an entry at or before the index of an import between search and state test, or of
      a start between insertion and launch. */
  ghost predicate SteadyRun(s: State, acts: seq<Action>)
    decreases |acts|
  {
    acts == [] ||
    (var t := Exec(s, acts[..|acts| - 1]);
     SteadyRun(s, acts[..|acts| - 1]) && t.Some? && !Drifts(t.value, acts[|acts| - 1]))
  }

  lemma TestKeepsAim(s: State, observed: bool)
    requires Inv(s) && Aimed(s) && s.server.Testing?
    ensures Aimed(TestState(s, observed))
  {
    assert s.vmis[s.server.index] in s.vmis;
    FindIsUnique(s.vmis, s.server.index);
  }

  /** While an import is between test and deletion, the instance it names stays unstarted or absent. */
  lemma OthersKeepUnstarted(s: State, a: Action)
    requires Inv(s) && s.server.Overwriting? && !Busy(s, s.server.name) && Enabled(s, a) && OfOthers(a)
    ensures !Busy(Apply(s, a), s.server.name)
  {
    var t, name := Apply(s, a), s.server.name;
    RegistryShrinks(s, a);
    var i := Find(t.vmis, name);
    if i < |t.vmis| {
      var e := t.vmis[i];
      assert e in s.vmis;
      var k :| 0 <= k < |s.vmis| && s.vmis[k] == e;
      FindIsUnique(s.vmis, k);
      UnstartedHasNoThread(s, e.id);
      UnstartedStays(s, a, e.id);
    }
  }

  /** A thread step changes the state of no VM but its own. */
  lemma ThreadSparesStates(s: State, c: nat, b: nat)
    requires ThreadReady(s, c) && InVm(s, b) && b != c
    ensures ThreadNext(s, c).vms[b].state == s.vms[b].state
  {
    if s.vms[c].thread.Deleting? || s.vms[c].thread.Failing? {
      DeletingStep(s, c);
    }
  }

  lemma UnstartedStays(s: State, a: Action, b: nat)
    requires Inv(s) && Enabled(s, a) && OfOthers(a) && InVm(s, b) && s.vms[b].thread.NoThread?
    ensures InVm(Apply(s, a), b) && Apply(s, a).vms[b].state == s.vms[b].state
  {
    if a.Thread? {
      ThreadSparesStates(s, a.vm, b);
    } else if a.Ready? && a.peer.Vsock? && a.peer.cid in s.pending {
      assert Waiter(s, a.peer.cid, s.pending[a.peer.cid]);
    }
  }

  lemma OthersKeepAim(s: State, a: Action)
    requires Inv(s) && Aimed(s) && Enabled(s, a) && OfOthers(a) && !s.server.Awaiting?
    requires !Drifts(s, a)
    ensures Aimed(Apply(s, a))
  {
    RegistryShrinks(s, a);
    if s.server.Overwriting? {
      OthersKeepUnstarted(s, a);
    }
  }

  lemma LatchKeepsAwaiting(s: State, a: Action)
    requires Enabled(s, a) && OfOthers(a) && s.server.Awaiting?
    ensures Apply(s, a).server.Awaiting?
  {
  }

  lemma RequestsKeepAim(s: State, a: Action)
    requires Enabled(s, a) && !OfOthers(a) && !a.ImportTest?
    ensures Aimed(Apply(s, a))
  {
    match a
    case Import(name, env) => assert !ImportVm(s, name, env).server.Overwriting?;
    case _ =>
  }

  lemma KeepsAim(s: State, a: Action)
    requires Inv(s) && Aimed(s) && Enabled(s, a) && !Drifts(s, a)
    ensures !Clobbers(s, a) && !Misleads(s, a) && Aimed(Apply(s, a))
  {
    if OfOthers(a) {
      if s.server.Awaiting? {
        LatchKeepsAwaiting(s, a);
      } else {
        OthersKeepAim(s, a);
      }
    } else if a.ImportTest? {
      TestKeepsAim(s, a.observed);
    } else {
      assert a.Launch? ==> s.vmis[s.server.index] in s.vmis;
      RequestsKeepAim(s, a);
    }
  }

  /** A run in which the registry does not shift under the index of an import or a start clobbers nothing and misleads
      no start. */
  lemma {:induction false} SteadyRunsAreSafe(acts: seq<Action>)
    requires Exec(Init(), acts).Some? && SteadyRun(Init(), acts)
    ensures var s := Exec(Init(), acts).value; !s.faults.clobbered && !s.faults.misled && Aimed(s)
    decreases |acts|
  {
    if acts != [] {
      var t, a := Exec(Init(), acts[..|acts| - 1]).value, acts[|acts| - 1];
      SteadyRunsAreSafe(acts[..|acts| - 1]);
      RunKeepsInv(Init(), acts[..|acts| - 1]);
      KeepsAim(t, a);
      FaultsRecorded(t, a);
    }
  }
}
