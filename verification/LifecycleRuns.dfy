/** Runs of the lifecycle that show which hypotheses its guarantees need. */
module LifecycleRuns {
  import opened Options
  import opened CidPool
  import opened VmStates
  import opened VmRegistry
  import opened QemuBuilder
  import opened StartupListener
  import opened Lifecycle
  import opened LifecycleSafety
  import opened LifecycleOwnership
  import opened LifecycleCids
  import opened LifecycleProgress

  lemma Advance(s: State, a: Action, t: State)
    requires SafelyReached(s) && Enabled(s, a) && Apply(s, a) == t
    requires !t.faults.clobbered && !t.faults.misled
    ensures SafelyReached(t)
  {
    var acts :| Exec(Init(), acts) == Some(s);
    assert (acts + [a])[..|acts|] == acts;
    assert Exec(Init(), acts + [a]) == Some(t);
  }

  lemma InitReached()
    ensures SafelyReached(Init())
  {
    assert Exec(Init(), []) == Some(Init());
  }

  /** A configuration in which every stage succeeds and the cid is given. */
  function Plain(cid: nat): BuildEnv {
    BuildEnv(true, true, HostGpu(true), true, Explicit(cid), true, [], false)
  }

  function NewVm(name: string, cid: nat, waits: bool, state: VmState, thread: ThreadPc): Vm {
    Vm(name, cid, waits, state, false, true, thread, 0)
  }

  /** One more VM, its cid taken. */
  function Plus(s: State, v: Vm, server: Srv): State
    requires v.cid < MAX_CID
  {
    s.(vms := s.vms + [v], vmis := s.vmis + [Entry(|s.vms|, v.name)], bits := s.bits[v.cid := false], server := server)
  }

  predicate CanAdd(s: State, name: string, cid: nat) {
    s.server.Idle? && s.history == [] && name != "" && Find(s.vmis, name) == |s.vmis| &&
    FIRST_CID <= cid < MAX_CID && s.bits[cid]
  }

  /** What a build and the insertion after it leave. */
  lemma PlainBuild(s: State, name: string, cid: nat, job: Job)
    requires CanAdd(s, name, cid)
    ensures var t := BuildVm(s, name, Plain(cid), job);
      var v := NewVm(name, cid, job.ForStart? && job.waits, Created, NoThread);
      && t.server == Built(|s.vms|, job) && InVm(t, |s.vms|)
      && InsertVm(t, |s.vms|, job) == Plus(s, v, if job.ForStart? then Inserted(|s.vms|, |s.vmis|) else Idle)
  {
    assert Granted(s.bits, Explicit(cid)) == cid;
    var (b, bits, ok) := Build(FRESH, Plain(cid), s.bits);
    assert ok && b.cid == cid && bits == s.bits[cid := false] && b.state == Created;
  }

  lemma Build1(s: State, name: string, cid: nat, job: Job)
    requires SafelyReached(s.(server := Building(name, Plain(cid), job))) && CanAdd(s, name, cid)
    ensures SafelyReached(Plus(s, NewVm(name, cid, job.ForStart? && job.waits, Created, NoThread),
                               if job.ForStart? then Inserted(|s.vms|, |s.vmis|) else Idle))
  {
    PlainBuild(s, name, cid, job);
    var t := BuildVm(s, name, Plain(cid), job);
    Advance(s.(server := Building(name, Plain(cid), job)), FinishBuild, t);
    Advance(t, Insert, InsertVm(t, |s.vms|, job));
  }

  lemma Import1(s: State, name: string, cid: nat)
    requires SafelyReached(s) && CanAdd(s, name, cid)
    ensures SafelyReached(Plus(s, NewVm(name, cid, false, Created, NoThread), Idle))
  {
    Advance(s, Import(name, Plain(cid)), s.(server := Building(name, Plain(cid), ForImport)));
    Build1(s, name, cid, ForImport);
  }

  lemma Launch1(s: State, name: string, cid: nat, waits: bool)
    requires SafelyReached(s) && CanAdd(s, name, cid)
    ensures SafelyReached(Plus(s, NewVm(name, cid, waits, Created, Launching), Awaiting(|s.vms|, if waits then 2 else 1)))
  {
    Advance(s, Start(name, Plain(cid), waits), s.(server := Building(name, Plain(cid), ForStart(waits))));
    Build1(s, name, cid, ForStart(waits));
    var v, w := NewVm(name, cid, waits, Created, NoThread), NewVm(name, cid, waits, Created, Launching);
    assert (s.vms + [v])[|s.vms| := w] == s.vms + [w];
    Advance(Plus(s, v, Inserted(|s.vms|, |s.vmis|)), Launch, Plus(s, w, Awaiting(|s.vms|, if waits then 2 else 1)));
  }

  /** A step of the last VM's thread. */
  lemma LastSteps(s: State, v: Vm, server: Srv, w: Vm, server': Srv)
    requires v.cid == w.cid < MAX_CID && v.name == w.name && SafelyReached(Plus(s, v, server))
    requires v.live && (v.thread.Launching? || v.thread.Counting? || v.thread.Readying?)
    requires var t := ThreadNext(Plus(s, v, server), |s.vms|);
      |t.vms| == |s.vms| + 1 && t.vms[|s.vms|] == w && t.server == server' && t.faults.thread == s.faults.thread
    ensures SafelyReached(Plus(s, w, server'))
  {
    assert (s.vms + [v])[|s.vms| := w] == s.vms + [w];
    assert ThreadNext(Plus(s, v, server), |s.vms|) == Plus(s, w, server');
    Advance(Plus(s, v, server), Thread(|s.vms|), Plus(s, w, server'));
  }

  /** A start without waiting, up to where its latch opens. */
  lemma Boot1(s: State, name: string, cid: nat)
    requires SafelyReached(s) && CanAdd(s, name, cid)
    ensures SafelyReached(Plus(s, NewVm(name, cid, false, Booting, Readying), Awaiting(|s.vms|, 0)))
  {
    var n := |s.vms|;
    Launch1(s, name, cid, false);
    LastSteps(s, NewVm(name, cid, false, Created, Launching), Awaiting(n, 1),
              NewVm(name, cid, false, Booting, Counting), Awaiting(n, 1));
    LastSteps(s, NewVm(name, cid, false, Booting, Counting), Awaiting(n, 1),
              NewVm(name, cid, false, Booting, Readying), Awaiting(n, 0));
  }

  function Reporting(s: State, ok: bool): State {
    s.(reports := s.reports + [Report(|s.vms|, ok, true)])
  }

  /** A start without waiting that reports success. */
  lemma Start1(s: State, name: string, cid: nat)
    requires SafelyReached(s) && CanAdd(s, name, cid)
    ensures SafelyReached(Plus(Reporting(s, true), NewVm(name, cid, false, Running, Exiting), Idle))
  {
    var n := |s.vms|;
    Boot1(s, name, cid);
    var v := NewVm(name, cid, false, Running, Exiting);
    LastSteps(s, NewVm(name, cid, false, Booting, Readying), Awaiting(n, 0), v, Awaiting(n, 0));
    Advance(Plus(s, v, Awaiting(n, 0)), StartDone(false), Plus(Reporting(s, true), v, Idle));
  }

  // ---------------------------------------------------------------- reports

  /** Why success may not be read backwards: without waiting, a start reports failure although the VM comes up. */
  lemma NoWaitUnderreports() returns (s: State)
    ensures SafelyReached(s) && s.reports == [Report(0, false, true)] && InVm(s, 0) && s.vms[0].state == Running
  {
    InitReached();
    Boot1(Init(), "a", 3);
    var v, r := NewVm("a", 3, false, Booting, Readying), Reporting(Init(), false);
    Advance(Plus(Init(), v, Awaiting(0, 0)), StartDone(false), Plus(r, v, Idle));
    LastSteps(r, v, Idle, NewVm("a", 3, false, Running, Exiting), Idle);
    s := Plus(r, NewVm("a", 3, false, Running, Exiting), Idle);
  }

  /** The VM registered and waiting to become ready. */
  function Waiting(thread: ThreadPc): State {
    Plus(Init(), NewVm("a", 3, true, Booting, thread), Awaiting(0, 1)).(history := [Added(3, 0)], pending := map[3 := 0])
  }

  lemma WaitingReached()
    ensures SafelyReached(Waiting(Polling))
  {
    InitReached();
    Launch1(Init(), "a", 3, true);
    LastSteps(Init(), NewVm("a", 3, true, Created, Launching), Awaiting(0, 2),
              NewVm("a", 3, true, Booting, Counting), Awaiting(0, 2));
    LastSteps(Init(), NewVm("a", 3, true, Booting, Counting), Awaiting(0, 2),
              NewVm("a", 3, true, Booting, Registering), Awaiting(0, 1));
    Advance(Plus(Init(), NewVm("a", 3, true, Booting, Registering), Awaiting(0, 1)), Thread(0), Waiting(Polling));
  }

  /** The wait failed and the builder is gone. */
  function Abandoned(thread: ThreadPc, latch: nat): State {
    var dead := NewVm("a", 3, true, Booting, thread).(stopped := true, live := false);
    Waiting(Failing).(vms := [dead], vmis := [], bits := AllFree(), server := Awaiting(0, latch))
  }

  lemma DeleteSole(s: State)
    requires |s.vms| == 1 && s.vms[0].name == "a" && s.vms[0].cid == 3 && s.vmis == [Entry(0, "a")]
    requires s.bits == AllFree()[3 := false]
    ensures DeleteNamed(s, "a") ==
      s.(vms := [s.vms[0].(stopped := true, live := false)], vmis := [], bits := AllFree())
  {
    assert Find(s.vmis, "a") == 0 && Remove(s.vmis, 0) == [];
    assert Release(s.bits, 3) == AllFree();
  }

  lemma AbandonStep()
    ensures var s := Waiting(Failing); ThreadReady(s, 0) && ThreadNext(s, 0) == Abandoned(LateReleasing, 1)
  {
    DeleteSole(Waiting(Failing));
    assert DeleteOwn(Waiting(Failing), 0, LateReleasing) == Abandoned(LateReleasing, 1);
  }

  lemma AbandonedReached()
    ensures SafelyReached(Abandoned(LateReleasing, 1))
  {
    WaitingReached();
    var s := Waiting(Failing);
    Advance(Waiting(Polling), Poll(0, false), s);
    AbandonStep();
    Advance(s, Thread(0), Abandoned(LateReleasing, 1));
  }

  /** Why ready-wait safety speaks of failed waits: after one, the builder is destroyed before its state is read, and
      whatever that read yields is reported, although no guest ever reported ready. */
  lemma BlindReport() returns (s: State)
    ensures SafelyReached(s) && s.reports == [Report(0, true, false)]
    ensures InVm(s, 0) && s.vms[0].waits && forall e :: e in s.history ==> !e.Reported?
  {
    AbandonedReached();
    var s1 := Abandoned(Ended(false), 0);
    s := s1.(server := Idle, reports := [Report(0, true, false)]);
    Advance(Abandoned(LateReleasing, 1), Thread(0), s1);
    Advance(s1, StartDone(true), s);
  }

  /** The guest of that start reports ready after all: its callback is fired on the destroyed builder. */
  lemma LateCallback() returns (s: State)
    ensures SafelyReached(s) && s.faults.lateReady
  {
    AbandonedReached();
    var s0 := Abandoned(LateReleasing, 1);
    s := VmReady(s0, 3);
    Advance(s0, Ready(Vsock(3)), s);
  }

  /** The guest of a waiting start reports in time, and the start succeeds with its VM running. */
  lemma ReadyStart() returns (s: State, u: State)
    ensures SafelyReached(s) && InVm(s, 0) && s.vms[0].waits && s.vms[0].thread.Polling? && s.vms[0].state == Booting
    ensures s.pending == map[3 := 0] && s.vms[0].cid == 3
    ensures Enabled(s, Ready(Vsock(3)))
    ensures Exec(Apply(s, Ready(Vsock(3))), [Poll(0, true), Thread(0), StartDone(false)]) == Some(u)
    ensures u.reports == [Report(0, true, true)] && InVm(u, 0) && u.vms[0].state == Running && u.vms[0].live
  {
    WaitingReached();
    s := Waiting(Polling);
    Advance(s, Ready(Vsock(3)), Apply(s, Ready(Vsock(3))));
    u := ReadyStartSucceeds(Apply(s, Ready(Vsock(3))), 0, false);
  }

  // ---------------------------------------------------------------- shared cids

  /** An imported `a` that was stopped but not destroyed. */
  function Stopped(): State {
    Init().(vms := [NewVm("a", 3, false, Created, NoThread).(stopped := true)], vmis := [Entry(0, "a")])
  }

  lemma StoppedReached()
    ensures SafelyReached(Stopped())
  {
    InitReached();
    Import1(Init(), "a", 3);
    var s := Plus(Init(), NewVm("a", 3, false, Created, NoThread), Idle);
    assert Find(s.vmis, "a") == 0;
    Advance(s, StopReq("a"), s.(server := StoppingAt(0)));
    assert Release(s.bits, 3) == AllFree();
    Advance(s.(server := StoppingAt(0)), StopDone(false), Stopped());
  }

  /** After that, `b` runs with the cid `a` had. */
  function Reused(): State {
    Plus(Reporting(Stopped(), true), NewVm("b", 3, false, Running, Exiting), Idle)
  }

  lemma OverwritingReached()
    ensures SafelyReached(Reused().(server := Overwriting("a", Plain(3))))
  {
    StoppedReached();
    assert Find(Stopped().vmis, "b") == 1;
    Start1(Stopped(), "b", 3);
    assert Find(Reused().vmis, "a") == 0;
    Advance(Reused(), Import("a", Plain(3)), Reused().(server := Testing(0, "a", Plain(3))));
    Advance(Reused().(server := Testing(0, "a", Plain(3))), ImportTest(false),
            Reused().(server := Overwriting("a", Plain(3))));
  }

  /** `a` destroyed, which has released the cid of `b`. */
  function Destroyed(): State {
    Reused().(vms := [Stopped().vms[0].(live := false), NewVm("b", 3, false, Running, Exiting)],
              vmis := [Entry(1, "b")], bits := AllFree())
  }

  lemma DestroyedReached()
    ensures SafelyReached(Destroyed().(server := Building("a", Plain(3), ForImport)))
  {
    OverwritingReached();
    var s := Reused().(server := Overwriting("a", Plain(3)));
    assert Find(s.vmis, "a") == 0 && Remove(s.vmis, 0) == [Entry(1, "b")];
    assert Release(s.bits, 3) == AllFree();
    assert DeleteNamed(s, "a") == Destroyed().(server := s.server);
    Advance(s, Overwrite, Destroyed().(server := Building("a", Plain(3), ForImport)));
  }

  /** Why exclusivity asks for careful runs: `a` is imported and stopped, `b` is started and gets its cid, and the
      import that overwrites `a` destroys it, which releases the cid a second time and hands it to the new `a`. */
  lemma SharedCid() returns (s: State)
    ensures SafelyReached(s) && HolderOf(s, 3, 1) && HolderOf(s, 3, 2)
  {
    DestroyedReached();
    assert Find(Destroyed().vmis, "a") == 1;
    Build1(Destroyed(), "a", 3, ForImport);
    s := Plus(Destroyed(), NewVm("a", 3, false, Created, NoThread), Idle);
  }

  // ---------------------------------------------------------------- drifting indices

  /** The first instance, `a`, is running and nothing but its thread is about to touch it. */
  predicate FirstRuns(s: State) {
    |s.vms| > 0 && s.vms[0].name == "a" && s.vms[0].live && s.vms[0].thread.Exiting? &&
    |s.vmis| > 0 && s.vmis[0] == Entry(0, "a")
  }

  /** Its guest exits and its thread deletes it: every other entry moves down by one. */
  lemma FirstGoes(s: State)
    requires FirstRuns(s)
    ensures ThreadReady(s, 0) && ThreadReady(ThreadNext(s, 0), 0)
    ensures var t := ThreadNext(ThreadNext(s, 0), 0);
      && t.server == s.server && t.vmis == s.vmis[1..] && t.faults == s.faults
      && t.history == s.history && t.reports == s.reports
      && |t.vms| == |s.vms| && forall c: nat :: 0 < c < |s.vms| ==> t.vms[c] == s.vms[c]
  {
    assert Find(s.vmis, "a") == 0 && Remove(s.vmis, 0) == s.vmis[1..];
  }

  /** A request from `s`, then the end of the first VM. */
  lemma RequestThenExit(s: State, a: Action) returns (t: State)
    requires Enabled(s, a) && FirstRuns(Apply(s, a))
    ensures ThreadReady(Apply(s, a), 0) && ThreadReady(ThreadNext(Apply(s, a), 0), 0)
    ensures t == ThreadNext(ThreadNext(Apply(s, a), 0), 0) && Exec(s, [a, Thread(0), Thread(0)]) == Some(t)
  {
    var s1 := Apply(s, a);
    FirstGoes(s1);
    var s2 := ThreadNext(s1, 0);
    t := ThreadNext(s2, 0);
    assert Exec(s, []) == Some(s);
    Then(s, [], s, a, s1);
    assert [] + [a] == [a];
    Then(s, [a], s1, Thread(0), s2);
    assert [a] + [Thread(0)] == [a, Thread(0)];
    Then(s, [a, Thread(0)], s2, Thread(0), t);
    assert [a, Thread(0)] + [Thread(0)] == [a, Thread(0), Thread(0)];
  }

  /** `a` runs, `b` is imported. */
  function Pair(): State {
    Plus(Plus(Reporting(Init(), true), NewVm("a", 3, false, Running, Exiting), Idle),
         NewVm("b", 4, false, Created, NoThread), Idle)
  }

  lemma PairReached()
    ensures SafelyReached(Pair())
  {
    InitReached();
    Start1(Init(), "a", 3);
    var s := Plus(Reporting(Init(), true), NewVm("a", 3, false, Running, Exiting), Idle);
    assert Find(s.vmis, "b") == 1;
    Import1(s, "b", 4);
  }

  /** Why a stop needs its target to stay where it was found: the guest of `a` exits while `a` is being stopped, and
      `b`, which moved to its place, is stopped instead. */
  lemma StopHitsOther() returns (s: State, u: State)
    ensures SafelyReached(s) && Exec(s, [StopReq("a"), Thread(0), Thread(0), StopDone(false)]) == Some(u)
    ensures InVm(s, 1) && s.vms[1].name == "b" && !s.vms[1].stopped && InVm(u, 1) && u.vms[1].stopped
  {
    PairReached();
    s := Pair();
    assert Find(s.vmis, "a") == 0;
    var t := RequestThenExit(s, StopReq("a"));
    FirstGoes(Apply(s, StopReq("a")));
    assert At(t, 0) == Some(1);
    u := Apply(t, StopDone(false));
    Then(s, [StopReq("a"), Thread(0), Thread(0)], t, StopDone(false), u);
    assert [StopReq("a"), Thread(0), Thread(0)] + [StopDone(false)] ==
      [StopReq("a"), Thread(0), Thread(0), StopDone(false)];
  }

  /** The same of a stop of `b`, the last instance: its index is then past the end. */
  lemma StopGoesAstray() returns (s: State, u: State)
    ensures SafelyReached(s) && Exec(s, [StopReq("b"), Thread(0), Thread(0), StopDone(false)]) == Some(u)
    ensures !s.faults.stray && u.faults.stray && InVm(u, 1) && u.vms[1].name == "b" && u.vms[1].live && !u.vms[1].stopped
  {
    PairReached();
    s := Pair();
    assert Find(s.vmis, "b") == 1;
    var t := RequestThenExit(s, StopReq("b"));
    FirstGoes(Apply(s, StopReq("b")));
    u := Apply(t, StopDone(false));
    Then(s, [StopReq("b"), Thread(0), Thread(0)], t, StopDone(false), u);
    assert [StopReq("b"), Thread(0), Thread(0)] + [StopDone(false)] ==
      [StopReq("b"), Thread(0), Thread(0), StopDone(false)];
  }

  /** `a` and `b` run, `c` is imported. */
  function Trio(): State {
    Plus(Plus(Reporting(Plus(Reporting(Init(), true), NewVm("a", 3, false, Running, Exiting), Idle), true),
              NewVm("b", 4, false, Running, Exiting), Idle),
         NewVm("c", 5, false, Created, NoThread), Idle)
  }

  lemma TrioReached()
    ensures SafelyReached(Trio())
  {
    InitReached();
    Start1(Init(), "a", 3);
    var s := Plus(Reporting(Init(), true), NewVm("a", 3, false, Running, Exiting), Idle);
    assert Find(s.vmis, "b") == 1;
    Start1(s, "b", 4);
    var s' := Plus(Reporting(s, true), NewVm("b", 4, false, Running, Exiting), Idle);
    assert Find(s'.vmis, "c") == 2;
    Import1(s', "c", 5);
  }

  const OVERWRITE_B: seq<Action> := [Import("b", Plain(6)), Thread(0), Thread(0)]

  /** A deletion by the name of VM 1, then a step of its thread. */
  lemma DestroyRunning(s: State) returns (t: State, u: State)
    requires s.server.Overwriting? && |s.vms| > 1 && |s.vmis| > 0 && s.vmis[0] == Entry(1, s.server.name)
    requires s.vms[1].thread.Exiting?
    ensures t == Apply(s, Overwrite) && Enabled(t, Thread(1)) && u == Apply(t, Thread(1))
    ensures InVm(u, 1) && !u.vms[1].live && u.vms[1].thread.Deleting? && u.faults.thread
  {
    assert Find(s.vmis, s.server.name) == 0;
    t := Apply(s, Overwrite);
    u := Apply(t, Thread(1));
  }

  /** Why ownership asks for safe runs: `a` goes while `b`, which runs, is being imported; the state test reads `c`,
      which moved to the place of `b`, and passes; `b` is destroyed and its thread touches what is gone. */
  lemma ClobberedVm() returns (s: State, u: State)
    ensures SafelyReached(s) && Exec(s, OVERWRITE_B + [ImportTest(false)] + [Overwrite] + [Thread(1)]) == Some(u)
    ensures InVm(s, 1) && s.vms[1].name == "b" && s.vms[1].state == Running
    ensures InVm(u, 1) && !u.vms[1].live && u.vms[1].thread.Deleting? && !s.faults.thread && u.faults.thread
  {
    TrioReached();
    s := Trio();
    assert Find(s.vmis, "b") == 1;
    var a := Import("b", Plain(6));
    var t := RequestThenExit(s, a);
    FirstGoes(Apply(s, a));
    var t1 := t.(server := Overwriting("b", Plain(6)));
    Then(s, OVERWRITE_B, t, ImportTest(false), t1);
    var t2;
    t2, u := DestroyRunning(t1);
    Then(s, OVERWRITE_B + [ImportTest(false)], t1, Overwrite, t2);
    Then(s, OVERWRITE_B + [ImportTest(false)] + [Overwrite], t2, Thread(1), u);
  }

  /** The state in which a start of `b`, asked to wait, has just inserted it after a running `a`. */
  function JustInserted(): State {
    var s := Plus(Reporting(Init(), true), NewVm("a", 3, false, Running, Exiting), Idle);
    Plus(s, NewVm("b", 4, true, Created, NoThread), Inserted(1, 1))
  }

  lemma JustInsertedReached()
    ensures SafelyReached(JustInserted())
  {
    InitReached();
    Start1(Init(), "a", 3);
    var s := Plus(Reporting(Init(), true), NewVm("a", 3, false, Running, Exiting), Idle);
    assert Find(s.vmis, "b") == 1;
    Advance(s, Start("b", Plain(4), true), s.(server := Building("b", Plain(4), ForStart(true))));
    Build1(s, "b", 4, ForStart(true));
  }

  /** Why ownership and reports ask that no start is misled: `a` goes between the insertion of `b` and the read of the
      builder inserted, which then lies past the end; no thread is launched on `b`, and the start may report that
      its guest is ready. */
  lemma MisledStart() returns (s: State, u: State)
    ensures SafelyReached(s) && s.server == Inserted(1, 1) && InVm(s, 1) && s.vms[1].name == "b" && s.vms[1].waits
    ensures Exec(s, [Thread(0), Thread(0), Launch, StartDone(true)]) == Some(u)
    ensures u.faults.misled && !u.faults.clobbered && InVm(u, 1) && u.vms[1] == s.vms[1] && u.vms[1].thread.NoThread?
    ensures u.reports == s.reports + [Report(1, true, false)] && u.history == []
  {
    JustInsertedReached();
    s := JustInserted();
    FirstGoes(s);
    var s1 := ThreadNext(s, 0);
    var s2 := ThreadNext(s1, 0);
    var s3 := Apply(s2, Launch);
    u := Apply(s3, StartDone(true));
    assert Exec(s, []) == Some(s);
    Then(s, [], s, Thread(0), s1);
    assert [] + [Thread(0)] == [Thread(0)];
    Then(s, [Thread(0)], s1, Thread(0), s2);
    assert [Thread(0)] + [Thread(0)] == [Thread(0), Thread(0)];
    Then(s, [Thread(0), Thread(0)], s2, Launch, s3);
    assert [Thread(0), Thread(0)] + [Launch] == [Thread(0), Thread(0), Launch];
    Then(s, [Thread(0), Thread(0), Launch], s3, StartDone(true), u);
    assert [Thread(0), Thread(0), Launch] + [StartDone(true)] == [Thread(0), Thread(0), Launch, StartDone(true)];
  }
}
