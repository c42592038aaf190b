/** What starts achieve: a guest's report makes its VM running, a start whose guest reported succeeds, one whose wait
    ends unready takes its VM down again, and one that does not wait succeeds when left alone. */
module LifecycleProgress {
  import opened Options
  import opened CidPool
  import opened VmStates
  import opened VmRegistry
  import opened QemuBuilder
  import opened StartupListener
  import opened Lifecycle
  import opened LifecycleBase
  import opened LifecycleSafety
  import opened LifecycleTheorems

  // ---------------------------------------------------------------- reports are kept

  /** In every run, an accepted report of a guest whose builder exists makes that VM running, spends its callback and
      leaves every other VM, callback and the registry alone. */
  lemma ReportMakesRunning(s: State, cid: nat)
    requires Reachable(s) && cid in s.pending && InVm(s, s.pending[cid]) && s.vms[s.pending[cid]].live
    ensures var t, b := Apply(s, Ready(Vsock(cid))), s.pending[cid];
      && |t.vms| == |s.vms| && t.vms[b] == s.vms[b].(state := Running)
      && (forall c: nat :: InVm(s, c) && c != b ==> t.vms[c] == s.vms[c])
      && (forall k :: k in t.pending <==> k in s.pending && k != cid)
      && (forall k :: k in t.pending ==> t.pending[k] == s.pending[k])
      && t.vmis == s.vmis && t.bits == s.bits && t.server == s.server
      && SawReady(t, b)
  {
    ReachableInv(s);
    var t, b := Apply(s, Ready(Vsock(cid))), s.pending[cid];
    assert Waiter(s, cid, b) && Heard(s, b);
    assert t.history[|s.history|] == Reported(cid, b);
  }

  /** Every event is about a VM there is; a VM whose guest was heard is running, or its builder is gone. */
  ghost predicate Confirmed(s: State) {
    forall j :: 0 <= j < |s.history| ==> Kept(s, s.history[j])
  }

  predicate Kept(s: State, e: Event) {
    InVm(s, e.waiter) && (e.Reported? ==> !s.vms[e.waiter].live || s.vms[e.waiter].state == Running)
  }

  /** No action brings a builder back. */
  lemma NeverRevived(s: State, a: Action, b: nat)
    requires Inv(s) && Enabled(s, a) && InVm(s, b)
    ensures InVm(Apply(s, a), b) && (Apply(s, a).vms[b].live ==> s.vms[b].live)
  {
    match a
    case Thread(c) => ThreadRevivesNone(s, c, b);
    case Overwrite => DeleteFades(s, s.server.name);
    case FinishBuild => BuildEffect(s);
    case _ =>
  }

  lemma ThreadRevivesNone(s: State, c: nat, b: nat)
    requires Inv(s) && ThreadReady(s, c) && InVm(s, b)
    ensures ThreadNext(s, c).vms[b].live ==> s.vms[b].live
  {
    if s.vms[c].thread.Deleting? || s.vms[c].thread.Failing? {
      SameBase(s, Touched(s, c));
      DeleteFades(Touched(s, c), s.vms[c].name);
      DeletingStep(s, c);
    }
  }

  lemma StepKeepsKept(s: State, a: Action, e: Event)
    requires Inv(s) && Enabled(s, a) && Kept(s, e)
    ensures Kept(Apply(s, a), e)
  {
    NeverRevived(s, a, e.waiter);
    StepAdvances(s, a, e.waiter);
  }

  lemma KeepsConfirmed(s: State, a: Action)
    requires Inv(s) && Confirmed(s) && Enabled(s, a)
    ensures Confirmed(Apply(s, a))
  {
    var t := Apply(s, a);
    HistoryGrows(s, a);
    forall j | 0 <= j < |t.history|
      ensures Kept(t, t.history[j])
    {
      if j < |s.history| {
        assert t.history[j] == s.history[j];
        StepKeepsKept(s, a, s.history[j]);
      }
    }
  }

  /** Each action adds at most one event, which it keeps itself. */
  lemma HistoryGrows(s: State, a: Action)
    requires Inv(s) && Enabled(s, a)
    ensures var t := Apply(s, a);
      t.history == s.history || (t.history == s.history + [t.history[|s.history|]] && Kept(t, t.history[|s.history|]))
  {
    match a
    case Thread(c) => ThreadHears(s, c);
    case FinishBuild => BuildEffect(s);
    case Ready(peer) =>
      if peer.Vsock? && peer.cid in s.pending {
        assert Waiter(s, peer.cid, s.pending[peer.cid]);
      }
    case _ =>
  }

  lemma ThreadHears(s: State, c: nat)
    requires Inv(s) && ThreadReady(s, c)
    ensures var t := ThreadNext(s, c);
      t.history == s.history || (t.history == s.history + [t.history[|s.history|]] && Kept(t, t.history[|s.history|]))
  {
    if s.vms[c].thread.Deleting? || s.vms[c].thread.Failing? {
      DeletingStep(s, c);
    }
  }

  lemma {:induction false} RunKeepsConfirmed(acts: seq<Action>)
    requires Exec(Init(), acts).Some?
    ensures Confirmed(Exec(Init(), acts).value)
    decreases |acts|
  {
    if acts != [] {
      RunKeepsConfirmed(acts[..|acts| - 1]);
      RunKeepsInv(Init(), acts[..|acts| - 1]);
      KeepsConfirmed(Exec(Init(), acts[..|acts| - 1]).value, acts[|acts| - 1]);
    }
  }

  /** In every run, a VM whose start waits, and whose builder exists, is running exactly if its guest reported ready
      under its id after it reached Booting. */
  lemma RunningIffReported(s: State, b: nat)
    requires Reachable(s) && InVm(s, b) && s.vms[b].live && s.vms[b].waits
    ensures s.vms[b].state == Running <==> SawReady(s, b)
  {
    ReachableInv(s);
    var acts :| Exec(Init(), acts) == Some(s);
    RunKeepsConfirmed(acts);
    assert Heard(s, b);
    if SawReady(s, b) {
      var j :| s.vms[b].mark <= j < |s.history| && s.history[j] == Reported(s.vms[b].cid, b);
      assert Kept(s, s.history[j]);
    }
  }

  // ---------------------------------------------------------------- starts come to their end

  /** One more action at the end of a run. */
  lemma Then(s: State, acts: seq<Action>, t: State, a: Action, u: State)
    requires Exec(s, acts) == Some(t) && Enabled(t, a) && Apply(t, a) == u
    ensures Exec(s, acts + [a]) == Some(u)
  {
    assert (acts + [a])[..|acts|] == acts;
  }

  lemma Three(s: State, a: Action, b: Action, c: Action) returns (u: State)
    requires Enabled(s, a) && Enabled(Apply(s, a), b) && Enabled(Apply(Apply(s, a), b), c)
    ensures u == Apply(Apply(Apply(s, a), b), c) && Exec(s, [a, b, c]) == Some(u)
  {
    var s1 := Apply(s, a);
    var s2 := Apply(s1, b);
    u := Apply(s2, c);
    assert Exec(s, []) == Some(s);
    Then(s, [], s, a, s1);
    assert [] + [a] == [a];
    Then(s, [a], s1, b, s2);
    assert [a] + [b] == [a, b];
    Then(s, [a, b], s2, c, u);
    assert [a, b] + [c] == [a, b, c];
  }

  /** In every run, a start whose VM is waited for and running goes on to report success, whatever a stray read would
      have yielded, and leaves the VM running. */
  lemma ReadyStartSucceeds(s: State, b: nat, observed: bool) returns (u: State)
    requires Reachable(s) && InVm(s, b) && s.vms[b].live && s.vms[b].thread.Polling? && s.vms[b].state == Running
    ensures Exec(s, [Poll(b, true), Thread(b), StartDone(observed)]) == Some(u)
    ensures u.reports == s.reports + [Report(b, true, true)] && u.server == Idle && InVm(u, b)
    ensures u.vms[b] == s.vms[b].(thread := Exiting) && u.faults == s.faults
  {
    ReachableInv(s);
    assert ThreadOk(s, b);
    u := Three(s, Poll(b, true), Thread(b), StartDone(observed));
  }

  lemma FailedWaitDeletes(s: State, b: nat)
    requires Inv(s) && InVm(s, b) && s.vms[b].live && s.vms[b].thread.Failing?
    ensures ThreadReady(s, b)
    ensures var t := ThreadNext(s, b);
      && InVm(t, b) && t.vms[b] == s.vms[b].(thread := LateReleasing, live := false, stopped := true)
      && Absent(t, s.vms[b].name) && t.bits == Release(s.bits, s.vms[b].cid) && t.server == s.server
  {
    DeleteDestroys(s, b);
    DeletingStep(s, b);
  }

  lemma LateRelease(s: State, b: nat)
    requires InVm(s, b) && !s.vms[b].live && s.vms[b].thread.LateReleasing? && s.server == Awaiting(b, 1)
    ensures ThreadReady(s, b)
    ensures ThreadNext(s, b) == Set(s, b, s.vms[b].(thread := Ended(false))).(server := Awaiting(b, 0))
    ensures forall observed ::
      Enabled(ThreadNext(s, b), StartDone(observed)) && Answer(ThreadNext(s, b), observed) == observed
  {
  }

  /** In every run, a start whose wait ends unready takes its VM out of the registry, gives its id back and reports
      whatever the read of the destroyed builder yields. */
  lemma UnreadyStartCleansUp(s: State, b: nat) returns (u: State)
    requires Reachable(s) && InVm(s, b) && s.vms[b].live && s.vms[b].thread.Polling?
    ensures Exec(s, [Poll(b, false), Thread(b), Thread(b)]) == Some(u)
    ensures InVm(u, b) && !u.vms[b].live && u.vms[b].stopped && u.vms[b].thread == Ended(false)
    ensures Absent(u, s.vms[b].name) && u.bits == Release(s.bits, s.vms[b].cid) && u.server == Awaiting(b, 0)
    ensures forall observed :: Enabled(u, StartDone(observed)) && Answer(u, observed) == observed
  {
    ReachableInv(s);
    assert ThreadOk(s, b);
    var s1 := Apply(s, Poll(b, false));
    KeepsInv(s, Poll(b, false));
    FailedWaitDeletes(s1, b);
    LateRelease(ThreadNext(s1, b), b);
    u := Three(s, Poll(b, false), Thread(b), Thread(b));
  }

  /** In every run, a start that does not wait reports success if its thread gets to mark the VM running first. */
  lemma PlainStartSucceeds(s: State, b: nat, observed: bool) returns (t: State)
    requires Reachable(s) && InVm(s, b) && s.vms[b].live && s.vms[b].thread.Launching? && !s.vms[b].waits
    ensures Exec(s, [Thread(b), Thread(b), Thread(b)]) == Some(t)
    ensures InVm(t, b) && t.vms[b].state == Running && t.vms[b].thread.Exiting? && t.faults == s.faults
    ensures Enabled(t, StartDone(observed)) && Answer(t, observed)
  {
    ReachableInv(s);
    assert ThreadOk(s, b);
    t := Three(s, Thread(b), Thread(b), Thread(b));
  }

  /** In every run, a start that waits registers its callback under its VM's id, behind no other. */
  lemma WaitingStartRegisters(s: State, b: nat) returns (t: State)
    requires Reachable(s) && InVm(s, b) && s.vms[b].live && s.vms[b].thread.Launching? && s.vms[b].waits
    ensures Exec(s, [Thread(b), Thread(b), Thread(b)]) == Some(t)
    ensures InVm(t, b) && t.vms[b].state == Booting && t.vms[b].thread.Polling? && t.vms[b].live
    ensures t.server == Awaiting(b, 1) && t.vms[b].cid in t.pending && t.pending[t.vms[b].cid] == b
  {
    ReachableInv(s);
    assert ThreadOk(s, b);
    t := Three(s, Thread(b), Thread(b), Thread(b));
  }
}
