/** The life of VMs in the server: the request handlers of the server thread, one thread per started VM, the start
    latch, the ready listener and the cid pool, as one transition system.

    Every registry, listener, pool and latch operation is one atomic action, so other threads may act between any
    two of a request: an import is a search, a state test, a deletion, a build and an insertion; a start is a search,
    a build, an insertion, a read of the inserted builder, and a wait; a stop is a search and a stop.  A VM keeps its
    identity (its index) for ever; `live` says whether its builder object still exists. */
module Lifecycle {
  import opened Options
  import opened CidPool
  import opened VmStates
  import opened VmRegistry
  import opened QemuBuilder
  import opened StartupListener

  /** Where the thread of a VM is in `VmThread`. */
  datatype ThreadPc =
    | NoThread          // never started
    | Launching         // about to start the emulator
    | Counting          // about to count the latch down for the first time
    | Readying          // no waiting asked for: about to mark the VM running
    | Registering       // about to register with the listener
    | Polling           // waiting to become ready
    | Releasing         // ready: about to release the latch
    | Exiting           // waiting for the emulator to exit
    | Deleting          // about to delete its instance
    | Failing           // not ready: about to delete its instance
    | LateReleasing     // about to release the latch after that
    | Ended(ready: bool)

  /** `mark` is the length of the listener's history when the VM reached Booting. */
  datatype Vm = Vm(
    name: string, cid: nat, waits: bool, state: VmState, stopped: bool, live: bool, thread: ThreadPc, mark: nat)

  /** Which request a build belongs to. */
  datatype Job = ForImport | ForStart(waits: bool)

  /** Where the server thread is.  What a search found, and where an insertion went, is remembered by index alone. */
  datatype Srv =
    | Idle
    | Testing(index: nat, name: string, env: BuildEnv)   // an import that found its name: about to test the state
    | Overwriting(name: string, env: BuildEnv)           // whose test passed: about to delete by name
    | Building(name: string, env: BuildEnv, job: Job)    // an import or a start about to build
    | Built(vm: nat, job: Job)                           // about to insert what it built
    | Inserted(vm: nat, index: nat)                      // a start about to read its builder back and launch a thread
    | Misled(vm: nat)                                    // a start that read back no builder, waiting all the same
    | Awaiting(vm: nat, latch: nat)                      // a start waiting on its latch
    | StoppingAt(index: nat)                             // a stop that found its name: about to stop

  /** A `StartVm` result; `sawLive` tells whether the state it read was that of an existing builder. */
  datatype Report = Report(vm: nat, ok: bool, sawLive: bool)

  /** What has gone wrong so far: `thread`, a latch or builder touched by a thread after its end, or a thread launched
      on no builder; `stray`, a use of a remembered index that lies past the end of the registry; `clobbered`, an
      import's deletion of an instance that was started; `misled`, a start that read back no builder; `lateReady`, a
      ready callback fired on a builder that is gone. */
  datatype Faults = Faults(thread: bool, stray: bool, clobbered: bool, misled: bool, lateReady: bool)

  datatype State = State(
    vms: seq<Vm>,
    vmis: seq<Entry>,
    bits: Bits,
    history: seq<Event>,
    pending: map<nat, nat>,
    server: Srv,
    reports: seq<Report>,
    faults: Faults)

  datatype Action =
    | Import(name: string, env: BuildEnv)
    | ImportTest(observed: bool)
    | Overwrite
    | Start(name: string, env: BuildEnv, waits: bool)
    | FinishBuild
    | Insert
    | Launch
    | StartDone(observed: bool)
    | StopReq(name: string)
    | StopDone(shutdown: bool)
    | Thread(vm: nat)
    | Poll(vm: nat, ready: bool)
    | Ready(peer: Peer)

  function Init(): State {
    State([], [], AllFree(), [], map[], Idle, [], Faults(false, false, false, false, false))
  }

  predicate InVm(s: State, b: nat) {
    b < |s.vms|
  }

  function Set(s: State, b: nat, v: Vm): State
    requires InVm(s, b)
  {
    s.(vms := s.vms[b := v])
  }

  /** One call of the listener. */
  function Hear(s: State, e: Event): State {
    s.(pending := Next(s.pending, e), history := s.history + [e])
  }

  // ---------------------------------------------------------------- registry operations

  /** A stop of VM `b`, explicit or by its destructor: the cid goes back to the pool but stays in the builder. */
  function StopVm(s: State, b: nat): State
    requires InVm(s, b)
  {
    Set(s, b, s.vms[b].(stopped := true)).(bits := Release(s.bits, s.vms[b].cid))
  }

  /** `DeleteVmInstance`: erases the first entry of that name and destroys its builder. */
  function DeleteNamed(s: State, name: string): (t: State)
    ensures |t.vms| == |s.vms| && t == s.(vms := t.vms, vmis := t.vmis, bits := t.bits)
  {
    var i := Find(s.vmis, name);
    if i == |s.vmis| || !InVm(s, s.vmis[i].id) then s
    else
      var b := s.vmis[i].id;
      var s1 := StopVm(s, b);
      Set(s1, b, s1.vms[b].(live := false)).(vmis := Remove(s.vmis, i))
  }

  /** The states in which an import may overwrite an instance. */
  predicate Overwritable(st: VmState) {
    st == Created || st == Empty
  }

  /** The instance of that name exists and has been started. */
  predicate Busy(s: State, name: string) {
    var i := Find(s.vmis, name);
    i < |s.vmis| && InVm(s, s.vmis[i].id) && !Overwritable(s.vms[s.vmis[i].id].state)
  }

  /** The builder a remembered index denotes now, if any. */
  function At(s: State, index: nat): Option<nat> {
    if index < |s.vmis| && InVm(s, s.vmis[index].id) then Some(s.vmis[index].id) else None
  }

  // ---------------------------------------------------------------- the requests

  /** The search an import begins with. */
  function ImportVm(s: State, name: string, env: BuildEnv): State {
    if name == "" then s
    else if Find(s.vmis, name) == |s.vmis| then s.(server := Building(name, env, ForImport))
    else s.(server := Testing(Find(s.vmis, name), name, env))
  }

  /** The state test, on whatever the index denotes by now; past the end it reads an arbitrary answer. */
  function TestState(s: State, observed: bool): State
    requires s.server.Testing?
  {
    var b := At(s, s.server.index);
    var passes := if b.Some? then Overwritable(s.vms[b.value].state) else observed;
    s.(server := if passes then Overwriting(s.server.name, s.server.env) else Idle,
       faults := s.faults.(stray := s.faults.stray || b.None?))
  }

  /** The search a start begins with. */
  function StartVm(s: State, name: string, env: BuildEnv, waits: bool): State {
    if name == "" || Find(s.vmis, name) < |s.vmis| then s
    else s.(server := Building(name, env, ForStart(waits)))
  }

  /** The build; the builder of a failed one is destroyed at once. */
  function BuildVm(s: State, name: string, env: BuildEnv, job: Job): (t: State)
    ensures t.faults == s.faults
  {
    var (b, bits, ok) := Build(FRESH, env, s.bits);
    if !ok then s.(bits := QemuBuilder.Stop(b, bits).1, server := Idle)
    else
      var vm := Vm(name, b.cid, job.ForStart? && job.waits, b.state, false, true, NoThread, 0);
      s.(bits := bits, vms := s.vms + [vm], server := Built(|s.vms|, job))
  }

  /** The insertion at the end of the registry, whose place a start remembers. */
  function InsertVm(s: State, b: nat, job: Job): State
    requires InVm(s, b)
  {
    s.(vmis := s.vmis + [Entry(b, s.vms[b].name)], server := if job.ForStart? then Inserted(b, |s.vmis|) else Idle)
  }

  /** The launch of a thread on whatever stands in that place by now; past the end that is no builder. */
  function LaunchVm(s: State): State
    requires s.server.Inserted?
  {
    match At(s, s.server.index)
    case Some(b) =>
      Set(s, b, s.vms[b].(thread := Launching)).(server := Awaiting(b, if s.vms[b].waits then 2 else 1))
    case None =>
      s.(server := Misled(s.server.vm), faults := s.faults.(thread := true, stray := true, misled := true))
  }

  /** The result of a start: the state of the builder, or whatever reading one that is not there yields. */
  function Finish(s: State, observed: bool): State
    requires s.server.Misled? || (s.server.Awaiting? && InVm(s, s.server.vm))
  {
    var b := s.server.vm;
    var live := s.server.Awaiting? && s.vms[b].live;
    s.(server := Idle, reports := s.reports + [Report(b, if live then s.vms[b].state == Running else observed, live)])
  }

  // ---------------------------------------------------------------- the thread of a VM

  /** The thread counts the latch of its own start down; `zero` is what `try_count_down` returns. */
  function CountDown(s: State, b: nat): (r: (State, bool))
    ensures r.0 == s.(server := r.0.server, faults := s.faults.(thread := r.0.faults.thread))
    ensures r.0.server == s.server || (s.server.Awaiting? && r.0.server.Awaiting?)
  {
    if s.server.Awaiting? && s.server.vm == b && s.server.latch > 0 then
      (s.(server := Awaiting(b, s.server.latch - 1)), s.server.latch == 1)
    else (s.(faults := s.faults.(thread := true)), false)
  }

  predicate ThreadReady(s: State, b: nat) {
    InVm(s, b) && !s.vms[b].thread.NoThread? && !s.vms[b].thread.Polling? && !s.vms[b].thread.Ended?
  }

  /** A thread step whose builder is gone is recorded as a fault, except the last use of the latch. */
  function Touched(s: State, b: nat): (t: State)
    requires InVm(s, b)
    ensures t == s.(faults := s.faults.(thread := t.faults.thread))
  {
    if s.vms[b].live || s.vms[b].thread.LateReleasing? then s else s.(faults := s.faults.(thread := true))
  }

  /** The thread deletes by the name of its VM and goes to `pc`. */
  function DeleteOwn(s: State, b: nat, pc: ThreadPc): (t: State)
    requires InVm(s, b)
    ensures |t.vms| == |s.vms| && t == s.(vms := t.vms, vmis := t.vmis, bits := t.bits)
  {
    var d := DeleteNamed(s, s.vms[b].name);
    Set(d, b, d.vms[b].(thread := pc))
  }

  function ThreadNext(s: State, b: nat): (t: State)
    requires ThreadReady(s, b)
    ensures |t.vms| == |s.vms| && t.faults == s.faults.(thread := t.faults.thread)
    ensures t.server == s.server || (s.server.Awaiting? && t.server.Awaiting?)
  {
    var v := s.vms[b];
    var s := Touched(s, b);
    match v.thread
    case Launching => Set(s, b, v.(state := Booting, mark := |s.history|, thread := Counting))
    case Counting =>
      var (t, zero) := CountDown(s, b);
      Set(t, b, v.(thread := if zero then Readying else Registering))
    case Readying => Set(s, b, v.(state := Running, thread := Exiting))
    case Registering =>
      Set(Hear(s, Added(v.cid, b)), b, v.(thread := Polling))
    case Releasing => Set(CountDown(s, b).0, b, v.(thread := Exiting))
    case Exiting => Set(s, b, v.(thread := Deleting))
    case Deleting => DeleteOwn(s, b, Ended(true))
    case Failing => DeleteOwn(s, b, LateReleasing)
    case LateReleasing => Set(CountDown(s, b).0, b, v.(thread := Ended(false)))
  }

  // ---------------------------------------------------------------- actions and runs

  predicate Enabled(s: State, a: Action) {
    match a
    case Import(_, _) => s.server.Idle?
    case ImportTest(_) => s.server.Testing?
    case Overwrite => s.server.Overwriting?
    case Start(_, _, _) => s.server.Idle?
    case FinishBuild => s.server.Building?
    case Insert => s.server.Built? && InVm(s, s.server.vm)
    case Launch => s.server.Inserted?
    case StartDone(_) => s.server.Misled? || (s.server.Awaiting? && s.server.latch == 0 && InVm(s, s.server.vm))
    case StopReq(_) => s.server.Idle?
    case StopDone(_) => s.server.StoppingAt?
    case Thread(b) => ThreadReady(s, b)
    case Poll(b, ready) => InVm(s, b) && s.vms[b].thread.Polling? && (ready ==> s.vms[b].state == Running)
    case Ready(_) => true
  }

  /** `VmReady`: the callback marks its VM running, if that builder still exists; otherwise it writes to freed memory,
      which is recorded and changes no VM. */
  function VmReady(s: State, cid: nat): State
    requires cid in s.pending
  {
    var b := s.pending[cid];
    var t := Hear(s, Reported(cid, b));
    if InVm(s, b) && s.vms[b].live then Set(t, b, s.vms[b].(state := Running))
    else t.(faults := t.faults.(lateReady := true))
  }

  function Apply(s: State, a: Action): State
    requires Enabled(s, a)
  {
    match a
    case Import(name, env) => ImportVm(s, name, env)
    case ImportTest(observed) => TestState(s, observed)
    case Overwrite =>
      DeleteNamed(s, s.server.name).(
        server := Building(s.server.name, s.server.env, ForImport),
        faults := s.faults.(clobbered := s.faults.clobbered || Busy(s, s.server.name)))
    case Start(name, env, waits) => StartVm(s, name, env, waits)
    case FinishBuild => BuildVm(s, s.server.name, s.server.env, s.server.job)
    case Insert => InsertVm(s, s.server.vm, s.server.job)
    case Launch => LaunchVm(s)
    case StartDone(observed) => Finish(s, observed)
    case StopReq(name) =>
      if Find(s.vmis, name) == |s.vmis| then s else s.(server := StoppingAt(Find(s.vmis, name)))
    case StopDone(shutdown) =>
      var t, b := s.(server := Idle), At(s, s.server.index);
      if shutdown then t else if b.Some? then StopVm(t, b.value) else t.(faults := t.faults.(stray := true))
    case Thread(b) => ThreadNext(s, b)
    case Poll(b, ready) => Set(s, b, s.vms[b].(thread := if ready then Releasing else Failing))
    case Ready(peer) => if peer.Vsock? && peer.cid in s.pending then VmReady(s, peer.cid) else s
  }

  /** The state a run from `s` leads to, or None when some action of it was not enabled. */
  function Exec(s: State, acts: seq<Action>): Option<State>
    decreases |acts|
  {
    if acts == [] then Some(s)
    else
      match Exec(s, acts[..|acts| - 1])
      case None => None
      case Some(t) => if Enabled(t, acts[|acts| - 1]) then Some(Apply(t, acts[|acts| - 1])) else None
  }

  /** `s` is where some run leads. */
  ghost predicate Reachable(s: State) {
    exists acts :: Exec(Init(), acts) == Some(s)
  }
}
