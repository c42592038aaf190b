/** The builder of one QEMU guest: the staged, fallible build, and the teardown that runs on every stop and again
    on destruction. */
module QemuBuilder {
  import opened CidPool
  import opened VmStates

  const GPU: string := "0000:00:02.0"

  /** The callbacks a build may queue for the end of the VM. */
  datatype EndCall = ProbeSound | RestoreDevices | RemovePowerSocket

  /** The display stage: any mode that keeps the GPU on the host, or GPU passthrough. */
  datatype GpuPlan = HostGpu(ok: bool) | PassGpu(soundUnloaded: bool, ok: bool)

  /** One token of the passthrough list, and whether handing that device over succeeds. */
  datatype Device = Device(id: string, passes: bool)

  /** What the configuration and the host make of each fallible stage. */
  datatype BuildEnv = BuildEnv(
    emulatorFound: bool,
    nameGiven: bool,
    gpu: GpuPlan,
    aafValid: bool,
    cid: CidRequest,
    firmwareValid: bool,
    devices: seq<Device>,
    powerSocket: bool)

  /** A builder as a value; `ran` and `restored` record the callbacks run and the devices given back. */
  datatype Builder = Builder(
    cid: nat,
    state: VmState,
    devices: set<string>,
    endCalls: seq<EndCall>,
    ran: seq<EndCall>,
    restored: multiset<string>)

  const FRESH: Builder := Builder(0, Empty, {}, [], [], multiset{})

  // ---------------------------------------------------------------- the build

  function GpuStage(b: Builder, plan: GpuPlan): (r: (Builder, bool)) {
    match plan
    case HostGpu(ok) => (b, ok)
    case PassGpu(soundUnloaded, ok) =>
      var b1 := b.(endCalls := Queue(b.endCalls, soundUnloaded, ProbeSound));
      (if ok then b1.(devices := b1.devices + {GPU}) else b1, ok)
  }

  /** The devices of the list that were handed over. */
  function Passed(list: seq<Device>): (r: set<string>)
    ensures forall d :: d in r <==> exists i :: 0 <= i < |list| && list[i].id == d && list[i].passes
  {
    set i | 0 <= i < |list| && list[i].passes :: list[i].id
  }

  function Queue(calls: seq<EndCall>, wanted: bool, call: EndCall): seq<EndCall> {
    if wanted then calls + [call] else calls
  }

  /** Everything after the last stage that can fail. */
  function Finish(b: Builder, env: BuildEnv): Builder {
    var devices := b.devices + Passed(env.devices);
    b.(state := Created,
       devices := devices,
       endCalls := Queue(Queue(b.endCalls, devices != {}, RestoreDevices), env.powerSocket, RemovePowerSocket))
  }

  /** `BuildVmArgs`: the builder and the pool it leaves, and whether it succeeded. */
  function Build(b: Builder, env: BuildEnv, bits: Bits): (Builder, Bits, bool) {
    if !env.emulatorFound || !env.nameGiven then (b, bits, false)
    else
      var (b1, gpuOk) := GpuStage(b, env.gpu);
      if !gpuOk || !env.aafValid || env.cid.Malformed? then (b1, bits, false)
      else
        var cid := Granted(bits, env.cid);
        var b2 := b1.(cid := cid);
        if cid == 0 then (b2, bits, false)
        else if !env.firmwareValid then (b2, Take(bits, cid), false)
        else (Finish(b2, env), Take(bits, cid), true)
  }

  // ---------------------------------------------------------------- the teardown

  function RunCall(b: Builder, call: EndCall): Builder {
    var b1 := b.(ran := b.ran + [call]);
    if call == RestoreDevices then b1.(restored := b1.restored + multiset(b1.devices)) else b1
  }

  /** Runs the queued callbacks front to back. */
  function Drain(b: Builder): Builder
    decreases |b.endCalls|
  {
    if b.endCalls == [] then b
    else Drain(RunCall(b, b.endCalls[0]).(endCalls := b.endCalls[1..]))
  }

  /** `StopVm`, also run by the destructor.  The cid is released but not forgotten. */
  function Stop(b: Builder, bits: Bits): (Builder, Bits) {
    (Drain(b), Release(bits, b.cid))
  }

  /** `n` stops in a row, the last of them by the destructor. */
  function StopTimes(b: Builder, bits: Bits, n: nat): (Builder, Bits) {
    if n == 0 then (b, bits)
    else
      var (c, left) := StopTimes(b, bits, n - 1);
      Stop(c, left)
  }

  // ---------------------------------------------------------------- what they promise

  /** How often a queue restores the devices. */
  function Restores(calls: seq<EndCall>): nat {
    if calls == [] then 0 else (if calls[0] == RestoreDevices then 1 else 0) + Restores(calls[1..])
  }

  lemma {:induction false} DrainRunsAll(b: Builder)
    ensures Drain(b).endCalls == [] && Drain(b).ran == b.ran + b.endCalls
    ensures Drain(b).devices == b.devices && Drain(b).cid == b.cid
    ensures forall d ::
      Drain(b).restored[d] == b.restored[d] + if d in b.devices then Restores(b.endCalls) else 0
    decreases |b.endCalls|
  {
    if b.endCalls != [] {
      var b1 := RunCall(b, b.endCalls[0]).(endCalls := b.endCalls[1..]);
      DrainRunsAll(b1);
      assert b1.ran + b1.endCalls == b.ran + b.endCalls;
    }
  }

  lemma {:induction false} LaterStopsAreIdle(b: Builder, bits: Bits, n: nat)
    requires n >= 1
    ensures StopTimes(b, bits, n) == (Drain(b), Release(bits, b.cid))
  {
    DrainRunsAll(b);
    if n > 1 {
      LaterStopsAreIdle(b, bits, n - 1);
      DrainRunsAll(Drain(b));
      assert Release(Release(bits, b.cid), b.cid) == Release(bits, b.cid);
    } else {
      assert StopTimes(b, bits, 0) == (b, bits);
    }
  }

  lemma RestoresQueued(calls: seq<EndCall>, wanted: bool, call: EndCall)
    ensures Restores(Queue(calls, wanted, call)) ==
      Restores(calls) + if wanted && call == RestoreDevices then 1 else 0
  {
    if wanted && calls != [] {
      RestoresQueued(calls[1..], wanted, call);
      assert (calls + [call])[1..] == calls[1..] + [call];
    }
  }

  /** After a build the devices are those handed over, and the queue holds the sound, restore and socket callbacks that
      apply, in that order. */
  lemma BuiltQueue(env: BuildEnv, bits: Bits)
    requires Build(FRESH, env, bits).2
    ensures var b := Build(FRESH, env, bits).0;
      && b.ran == [] && b.restored == multiset{}
      && b.devices == Passed(env.devices) + (if env.gpu.PassGpu? then {GPU} else {})
      && b.endCalls == (if env.gpu.PassGpu? && env.gpu.soundUnloaded then [ProbeSound] else [])
                       + (if b.devices == {} then [] else [RestoreDevices])
                       + (if env.powerSocket then [RemovePowerSocket] else [])
  {
  }

  lemma BuiltRestoresOnce(env: BuildEnv, bits: Bits)
    requires Build(FRESH, env, bits).2
    ensures var b := Build(FRESH, env, bits).0;
      b.ran == [] && b.restored == multiset{} && Restores(b.endCalls) == if b.devices == {} then 0 else 1
  {
    var b := Build(FRESH, env, bits).0;
    var q1 := Queue([], env.gpu.PassGpu? && env.gpu.soundUnloaded, ProbeSound);
    RestoresQueued([], env.gpu.PassGpu? && env.gpu.soundUnloaded, ProbeSound);
    RestoresQueued(q1, b.devices != {}, RestoreDevices);
    RestoresQueued(Queue(q1, b.devices != {}, RestoreDevices), env.powerSocket, RemovePowerSocket);
  }

  /** Teardown exactly once: however often a built VM is stopped before it is destroyed, each queued callback runs
      once, in the order it was queued; each device handed over is given back exactly once, even if the list repeats
      devices or names the GPU as well; the id is remembered, but the pool is as before the build. */
  lemma TeardownOnce(env: BuildEnv, bits: Bits, stops: nat)
    requires Build(FRESH, env, bits).2
    ensures var (b, taken, _) := Build(FRESH, env, bits);
      var (after, left) := StopTimes(b, taken, stops + 1);
      && after.ran == b.endCalls && after.endCalls == [] && after.cid == b.cid && left == bits
      && (forall d :: after.restored[d] == if d in b.devices then 1 else 0)
  {
    BuiltRestoresOnce(env, bits);
    BuildTakesOne(env, bits);
    var (b, taken, _) := Build(FRESH, env, bits);
    TeardownOf(b, bits, stops + 1);
  }

  lemma TeardownOf(b: Builder, bits: Bits, stops: nat)
    requires stops >= 1 && FIRST_CID <= b.cid < MAX_CID && bits[b.cid]
    requires b.ran == [] && b.restored == multiset{} && Restores(b.endCalls) == if b.devices == {} then 0 else 1
    ensures var (after, left) := StopTimes(b, bits[b.cid := false], stops);
      && after.ran == b.endCalls && after.endCalls == [] && after.cid == b.cid && left == bits
      && (forall d :: after.restored[d] == if d in b.devices then 1 else 0)
  {
    LaterStopsAreIdle(b, bits[b.cid := false], stops);
    DrainRunsAll(b);
    assert bits[b.cid := false][b.cid := true] == bits;
  }

  /** A single stop of a builder, in whatever state: the whole queue runs, the id goes back and is remembered. */
  lemma StopIsComplete(b: Builder, bits: Bits)
    ensures var (after, left) := Stop(b, bits);
      && after.ran == b.ran + b.endCalls && after.endCalls == [] && after.cid == b.cid && after.devices == b.devices
      && (forall k :: 0 <= k < 10000 ==> left[k] == (bits[k] || (k == b.cid && 3 <= k)))
  {
    DrainRunsAll(b);
  }

  /** When a build succeeds: exactly if every fallible stage does and the id asked for can be had. */
  lemma BuildSucceeds(env: BuildEnv, bits: Bits)
    ensures Build(FRESH, env, bits).2 <==>
      && env.emulatorFound && env.nameGiven && env.gpu.ok && env.aafValid && env.firmwareValid
      && match env.cid
         case Auto => exists k :: 1000 <= k < 10000 && bits[k]
         case Explicit(v) => 3 <= v % 0x1_0000_0000 < 10000 && bits[v % 0x1_0000_0000]
         case Malformed => false
  {
    GrantIsExact(bits, env.cid);
  }

  /** A failed build conserves the pool: whichever stage failed, destroying the builder leaves the pool as it was
      before the build; a refused cid in particular frees nobody's, and only a build that fails at its firmware held
      an id meanwhile. */
  lemma FailedBuildConserves(env: BuildEnv, bits: Bits)
    requires !Build(FRESH, env, bits).2
    ensures var (b, bits', _) := Build(FRESH, env, bits); Stop(b, bits').1 == bits
    ensures var (b, bits', _) := Build(FRESH, env, bits);
      b.cid != 0 <==>
      && env.emulatorFound && env.nameGiven && env.gpu.ok && env.aafValid && !env.firmwareValid
      && Granted(bits, env.cid) != 0
  {
    GrantThenRelease(bits, env.cid);
  }

  /** A successful build holds exactly one id more than before, one that was available. */
  lemma BuildTakesOne(env: BuildEnv, bits: Bits)
    requires Build(FRESH, env, bits).2
    ensures var (b, bits', _) := Build(FRESH, env, bits);
      FIRST_CID <= b.cid < MAX_CID && bits[b.cid] && bits' == bits[b.cid := false] && b.state == Created
  {
  }

  /** The devices are not conserved by a failed build: the callback that gives them back is queued after the last
      fallible stage, so the GPU stays handed over exactly when its own stage succeeded and a later one failed. */
  lemma FailedBuildKeepsGpu(env: BuildEnv, bits: Bits)
    requires !Build(FRESH, env, bits).2
    ensures var (b, bits', _) := Build(FRESH, env, bits);
      var after := Stop(b, bits').0;
      && after.restored == multiset{}
      && ((exists d :: d in after.devices && after.restored[d] == 0) <==>
          env.emulatorFound && env.nameGiven && env.gpu.PassGpu? && env.gpu.ok)
  {
    var (b, bits', _) := Build(FRESH, env, bits);
    DrainRunsAll(b);
    if b.devices != {} {
      assert GPU in Stop(b, bits').0.devices;
    }
  }

  // ---------------------------------------------------------------- waiting

  const READY_TRIES: nat := 200

  /** `WaitVmReady`: `alive(k)` is whether the emulator runs at the start of try `k`, `seen(k)` the state read at its
      end.  Ready exactly if Running was seen in one of 200 tries up to which the emulator was always alive. */
  method WaitVmReady(alive: nat -> bool, seen: nat -> VmState) returns (ready: bool)
    ensures ready <==> exists k: nat :: k < 200 && seen(k) == Running && forall j: nat :: j <= k ==> alive(j)
  {
    var tries: nat := 0;
    while tries < READY_TRIES
      invariant tries <= READY_TRIES
      invariant forall j: nat :: j < tries ==> alive(j) && seen(j) != Running
    {
      if !alive(tries) {
        return false;
      }
      if seen(tries) == Running {
        return true;
      }
      tries := tries + 1;
    }
    return false;
  }

  // ---------------------------------------------------------------- the object

  class VmBuilderQemu {
    const pool: VsockCidPool
    var cid: nat
    var state: VmState
    var devices: set<string>
    var endCalls: seq<EndCall>
    var ran: seq<EndCall>
    var restored: multiset<string>

    ghost function View(): Builder
      reads this
    {
      Builder(cid, state, devices, endCalls, ran, restored)
    }

    constructor (pool: VsockCidPool)
      ensures this.pool == pool && View() == FRESH
    {
      this.pool := pool;
      cid, state, devices, endCalls, ran, restored := 0, Empty, {}, [], [], multiset{};
    }

    method BuildVmArgs(env: BuildEnv) returns (ok: bool)
      requires pool.Valid() && pool.bs as object != this
      modifies this, pool.bs
      ensures pool.Valid() && (View(), pool.Contents(), ok) == Build(old(View()), env, old(pool.Contents()))
    {
      if !env.emulatorFound || !env.nameGiven {
        return false;
      }
      ok := BuildVgpuCmd(env.gpu);
      if !ok || !env.aafValid {
        return false;
      }
      ok := BuildVsockCmd(env.cid);
      if !ok || !env.firmwareValid {
        return false;
      }
      BuildPtPciDevicesCmd(env.devices);
      if devices != {} {
        endCalls := endCalls + [RestoreDevices];
      }
      if env.powerSocket {
        endCalls := endCalls + [RemovePowerSocket];
      }
      state := Created;
    }

    method BuildVgpuCmd(plan: GpuPlan) returns (ok: bool)
      modifies this
      ensures (View(), ok) == GpuStage(old(View()), plan)
    {
      match plan
      case HostGpu(fine) => return fine;
      case PassGpu(soundUnloaded, fine) =>
        if soundUnloaded {
          endCalls := endCalls + [ProbeSound];
        }
        if fine {
          devices := devices + {GPU};
        }
        return fine;
    }

    method BuildVsockCmd(want: CidRequest) returns (ok: bool)
      requires pool.Valid() && pool.bs as object != this
      modifies this`cid, pool.bs
      ensures pool.Valid() && ok == (!want.Malformed? && cid != 0)
      ensures cid == (if want.Malformed? then old(cid) else Granted(old(pool.Contents()), want))
      ensures pool.Contents() == (if want.Malformed? then old(pool.Contents()) else Take(old(pool.Contents()), cid))
    {
      match want {
        case Auto => cid := pool.GetCid();
        case Explicit(v) => cid := pool.GetGivenCid(v);
        case Malformed => return false;
      }
      ok := cid != 0;
    }

    method BuildPtPciDevicesCmd(list: seq<Device>)
      modifies this`devices
      ensures devices == old(devices) + Passed(list)
    {
      var i := 0;
      while i < |list|
        invariant 0 <= i <= |list|
        invariant devices == old(devices) + Passed(list[..i])
      {
        if list[i].passes {
          devices := devices + {list[i].id};
        }
        i := i + 1;
      }
      assert list[..|list|] == list;
    }

    method StopVm()
      requires pool.Valid() && pool.bs as object != this
      modifies this, pool.bs
      ensures pool.Valid() && (View(), pool.Contents()) == Stop(old(View()), old(pool.Contents()))
    {
      var _ := pool.ReleaseCid(cid);
      while endCalls != []
        invariant Drain(View()) == Drain(old(View()))
        invariant pool.Valid() && pool.Contents() == Release(old(pool.Contents()), old(cid))
        decreases |endCalls|
      {
        ghost var before := View();
        RunEndCall(endCalls[0]);
        endCalls := endCalls[1..];
        assert View() == RunCall(before, before.endCalls[0]).(endCalls := before.endCalls[1..]);
      }
    }

    method RunEndCall(call: EndCall)
      modifies this`ran, this`restored
      ensures View() == RunCall(old(View()), call)
    {
      ran := ran + [call];
      if call == RestoreDevices {
        RestoreAll();
      }
    }

    method RestoreAll()
      modifies this`restored
      ensures restored == old(restored) + multiset(devices)
    {
      var todo := devices;
      while todo != {}
        invariant todo <= devices
        invariant restored == old(restored) + multiset(devices - todo)
        decreases todo
      {
        var d :| d in todo;
        assert devices - (todo - {d}) == (devices - todo) + {d};
        restored := restored + multiset{d};
        todo := todo - {d};
      }
      assert devices - todo == devices;
    }
  }
}
