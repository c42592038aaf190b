/** What every run of the handshake keeps, whatever the scheduler does: spurious wakeups on both sides, timeouts,
    throwing handlers and external stops included. */
module HandshakeSafety {
  import opened Options
  import opened Handshake

  // ---------------------------------------------------------------- the invariant

  predicate HoldsMutex(pc: ClientPc) {
    !pc.Idle? && !pc.Done? && !pc.Refused? && !pc.Threw?
  }

  predicate HoldsCond(pc: ClientPc) {
    pc.Notifying? || pc.Flagging? || pc.Testing? || pc.Reading?
  }

  predicate HasMsg(pc: ClientPc) {
    HoldsMutex(pc) && !pc.Constructing?
  }

  /** The server's critical section. */
  predicate ServerInside(pc: ServerPc) {
    pc.Checking? || pc.Finding? || pc.Switching? || pc.Handling? || pc.Answering? || pc.Clearing? ||
    pc.NotifyingClient?
  }

  /** The program counter of the mutex holder, or Idle when the mutex is free. */
  function HolderPc(s: State): ClientPc {
    if s.mutex.Some? && InCall(s, s.mutex.value) then Pc(s, s.mutex.value) else Idle
  }

  /** Each lock is owned by exactly the program counters that hold it, and only the mutex holder takes the other. */
  ghost predicate Locks(s: State) {
    && (s.mutex.Some? ==> InCall(s, s.mutex.value))
    && (forall c: nat :: InCall(s, c) ==> (HoldsMutex(Pc(s, c)) <==> s.mutex == Some(c)))
    && (s.cond.ByClient? <==> HoldsCond(HolderPc(s)))
    && (s.cond.ByClient? ==> s.mutex == Some(s.cond.call))
    && (s.cond.ByServer? <==> ServerInside(s.server))
  }

  /** The message object exists exactly while the mutex holder is between construction and destruction. */
  ghost predicate Ownership(s: State) {
    && (s.msg.Some? <==> HasMsg(HolderPc(s)))
    && (s.msg.Some? ==> s.mutex == Some(s.msg.value.call))
    && (s.server.Switching? || s.server.Handling? || s.server.Answering? || s.server.Clearing? ==>
          Owns(s, s.server.call))
    && (HolderPc(s).WritingType? ==> s.msg.Some? && s.msg.value.kind == Blank)
    && (s.server.Handling? || s.server.Answering? ==> !HolderPc(s).WritingType?)
    && (s.msg.Some? && s.mutex.Some? && InCall(s, s.mutex.value) && IsCommand(s.msg.value.kind) ==>
          s.msg.value.kind == s.clients[s.mutex.value].req.kind)
    && !s.fault
  }

  /** No wakeup is lost. */
  ghost predicate Wakeups(s: State) {
    && (s.server == ServerWait(false) ==> !s.msgIn && !HolderPc(s).Flagging?)
    && (HolderPc(s).Waiting? && HolderPc(s).wake == Asleep ==> s.msgIn || s.server.NotifyingClient?)
  }

  /** How many commands the dispatcher has run for call `c`. */
  function CommandRuns(log: seq<Start>, c: nat): nat {
    if log == [] then 0
    else
      var last := log[|log| - 1];
      CommandRuns(log[..|log| - 1], c) + if last.call == c && IsCommand(last.kind) then 1 else 0
  }

  /** Once a command of `c` has run, its message is never again seen as a command. */
  ghost predicate OnceFor(s: State, c: nat)
    requires InCall(s, c)
  {
    && CommandRuns(s.started, c) <= 1
    && ((!HasMsg(Pc(s, c)) && !Pc(s, c).Done?) || Pc(s, c).WritingType? ==> CommandRuns(s.started, c) == 0)
    && (CommandRuns(s.started, c) == 1 && Owns(s, c) ==>
          || IsResponse(s.msg.value.kind)
          || s.server.Exited?
          || (s.server.Handling? && s.server.call == c)
          || (s.server.Answering? && s.server.call == c))
  }

  /** A command that ran is the one its call asked for. */
  predicate Asked(s: State, e: Start) {
    InCall(s, e.call) && (IsCommand(e.kind) ==> e.kind == s.clients[e.call].req.kind)
  }

  ghost predicate Once(s: State) {
    && (forall c: nat :: InCall(s, c) ==> OnceFor(s, c))
    && (forall e :: e in s.started ==> Asked(s, e))
    && (s.server.Answering? ==> IsResponse(s.server.answer))
  }

  /** A call picked up in wait `r` is past that wait by at most one retry. */
  ghost predicate AnsweredIn(s: State, c: nat, r: nat) {
    InCall(s, c) &&
    match Pc(s, c)
    case Waiting(q, _) => q == r && !s.msgIn
    case Testing(q) => q <= r + 1 && !s.msgIn
    case Reading(q) => q <= r + 1
    case Done(_, responding) => r + 1 < MAX_RETRY ==> responding
    case _ => false
  }

  ghost predicate PickedUp(s: State) {
    (s.server.Handling? || s.server.Answering? || s.server.Clearing?) && s.server.pickup.Some? ==>
      WaitOf(s, s.server.call) == s.server.pickup
  }

  ghost predicate Budget(s: State) {
    && PickedUp(s)
    && (forall a :: a in s.answered && a.pickup.Some? ==> AnsweredIn(s, a.call, a.pickup.value))
  }

  ghost predicate Inv(s: State) {
    Locks(s) && Ownership(s) && Wakeups(s) && Once(s) && Budget(s)
  }

  // ---------------------------------------------------------------- every action keeps it

  lemma CommandRunsAppend(log: seq<Start>, e: Start, c: nat)
    ensures CommandRuns(log + [e], c) == CommandRuns(log, c) + if e.call == c && IsCommand(e.kind) then 1 else 0
  {
    assert (log + [e])[..|log|] == log;
  }

  lemma InitKeeps(reqs: seq<Request>)
    ensures Inv(Init(reqs))
  {
  }

  ghost predicate Core(s: State) {
    Locks(s) && Ownership(s) && Wakeups(s)
  }

  lemma OpeningKeepsCore(s: State, c: nat)
    requires Inv(s) && ClientReady(s, c)
    requires Pc(s, c).Idle? || Pc(s, c).Constructing?
    ensures Core(ClientNext(s, c))
  {
    var s' := ClientNext(s, c);
    assert forall d: nat :: InCall(s, d) && d != c ==> Pc(s', d) == Pc(s, d);
  }

  lemma WritingKeepsCore(s: State, c: nat)
    requires Inv(s) && ClientReady(s, c)
    requires Pc(s, c).WritingType? || Pc(s, c).WritingPayload?
    ensures Core(ClientNext(s, c))
  {
    var s' := ClientNext(s, c);
    assert forall d: nat :: InCall(s, d) && d != c ==> Pc(s', d) == Pc(s, d);
  }

  lemma FlaggingKeepsCore(s: State, c: nat)
    requires Inv(s) && ClientReady(s, c)
    requires Pc(s, c).LockingCond? || Pc(s, c).Notifying? || Pc(s, c).Flagging?
    ensures Core(ClientNext(s, c))
  {
    var s' := ClientNext(s, c);
    assert forall d: nat :: InCall(s, d) && d != c ==> Pc(s', d) == Pc(s, d);
  }

  lemma TestingKeepsCore(s: State, c: nat)
    requires Inv(s) && ClientReady(s, c)
    requires Pc(s, c).Testing?
    ensures Core(ClientNext(s, c))
  {
    var s' := ClientNext(s, c);
    assert forall d: nat :: InCall(s, d) && d != c ==> Pc(s', d) == Pc(s, d);
  }

  lemma WaitingKeepsCore(s: State, c: nat)
    requires Inv(s) && ClientReady(s, c)
    requires Pc(s, c).Waiting? || Pc(s, c).Reading?
    ensures Core(ClientNext(s, c))
  {
    var s' := ClientNext(s, c);
    assert forall d: nat :: InCall(s, d) && d != c ==> Pc(s', d) == Pc(s, d);
  }

  lemma LookingKeepsCore(s: State)
    requires Inv(s) && ServerReady(s)
    requires s.server.LoopTest? || s.server.Acquiring? || s.server.Checking?
    ensures Core(ServerNext(s))
  {
  }

  lemma FindingKeepsCore(s: State)
    requires Inv(s) && ServerReady(s)
    requires s.server.ServerWait? || s.server.Finding?
    ensures Core(ServerNext(s))
  {
  }

  lemma DispatchKeepsCore(s: State)
    requires Inv(s) && ServerReady(s)
    requires s.server.Switching? || s.server.Answering? || s.server.Clearing?
    ensures Core(ServerNext(s))
  {
  }

  lemma ReturnKeepsCore(s: State, outcome: Outcome)
    requires Inv(s) && s.server.Handling?
    ensures Core(Return(s, outcome))
  {
  }

  lemma WakingKeepsCore(s: State, a: Action)
    requires Inv(s) && Enabled(s, a) && (a.Timeout? || a.ClientSpurious? || a.NotifyOne?)
    ensures Core(Apply(s, a))
  {
    if a.NotifyOne? && a.waiter.None? && s.mutex.Some? {
      assert !IsAsleep(s, s.mutex.value);
    }
  }

  lemma OtherKeepsCore(s: State, a: Action)
    requires Inv(s) && Enabled(s, a) && (a.AllocThrows? || a.ServerSpurious? || a.ExternalStop?)
    ensures Core(Apply(s, a))
  {
  }

  lemma KeepsCore(s: State, a: Action)
    requires Inv(s) && Enabled(s, a)
    ensures Core(Apply(s, a))
  {
    match a
    case ClientStep(c) =>
      match Pc(s, c) {
        case Idle => OpeningKeepsCore(s, c);
        case Constructing => OpeningKeepsCore(s, c);
        case WritingType => WritingKeepsCore(s, c);
        case WritingPayload => WritingKeepsCore(s, c);
        case LockingCond => FlaggingKeepsCore(s, c);
        case Notifying => FlaggingKeepsCore(s, c);
        case Flagging => FlaggingKeepsCore(s, c);
        case Testing(_) => TestingKeepsCore(s, c);
        case _ => WaitingKeepsCore(s, c);
      }
    case ServerStep =>
      match s.server {
        case ServerWait(_) => FindingKeepsCore(s);
        case Finding => FindingKeepsCore(s);
        case Switching(_) => DispatchKeepsCore(s);
        case Answering(_, _, _) => DispatchKeepsCore(s);
        case Clearing(_, _) => DispatchKeepsCore(s);
        case _ => LookingKeepsCore(s);
      }
    case HandlerReturns(outcome) => ReturnKeepsCore(s, outcome);
    case Timeout(_) => WakingKeepsCore(s, a);
    case ClientSpurious(_) => WakingKeepsCore(s, a);
    case NotifyOne(_) => WakingKeepsCore(s, a);
    case _ => OtherKeepsCore(s, a);
  }

  /** A call steps only as the mutex holder or to become it, so no other call is under way. */
  lemma StepsAlone(s: State, c: nat, d: nat)
    requires Core(s) && ClientReady(s, c) && InCall(s, d) && d != c
    ensures !HoldsMutex(Pc(s, d)) && !Owns(s, d)
  {
    assert InCall(s, c);
  }

  /** What a client step leaves alone. */
  lemma ClientFrame(s: State, c: nat, d: nat)
    requires Core(s) && ClientReady(s, c) && InCall(s, d) && d != c
    ensures var s' := ClientNext(s, c);
      Pc(s', d) == Pc(s, d) && !Owns(s', d) && s'.started == s.started && s'.answered == s.answered
  {
    StepsAlone(s, c, d);
  }

  lemma ClientKeepsOnce(s: State, c: nat, d: nat)
    requires Core(s) && ClientReady(s, c) && InCall(s, d) && OnceFor(s, d)
    ensures OnceFor(ClientNext(s, c), d)
  {
    if d != c {
      StepsAlone(s, c, d);
      ClientFrame(s, c, d);
    } else {
      OwnOnce(s, c);
    }
  }

  lemma OwnOnce(s: State, c: nat)
    requires Core(s) && ClientReady(s, c) && OnceFor(s, c)
    ensures OnceFor(ClientNext(s, c), c)
  {
  }

  /** A dispatch runs a command only for a call that had none run. */
  lemma OwnSwitchOnce(s: State, t: State, c: nat)
    requires InCall(s, c) && Owns(s, c) && OnceFor(s, c) && s.server == Switching(c)
    requires t.clients == s.clients && t.msg == s.msg && HasMsg(Pc(s, c))
    requires Pc(s, c).WritingType? ==> s.msg.value.kind == Blank
    requires CommandRuns(t.started, c) == CommandRuns(s.started, c) + if IsCommand(s.msg.value.kind) then 1 else 0
    requires IsCommand(s.msg.value.kind) ==> (t.server.Handling? || t.server.Answering?) && t.server.call == c
    ensures OnceFor(t, c)
  {
  }

  lemma SwitchKeepsOnce(s: State, d: nat)
    requires Core(s) && s.server.Switching? && InCall(s, d) && OnceFor(s, d)
    ensures OnceFor(ServerNext(s), d)
  {
    var t, c := ServerNext(s), s.server.call;
    var e := Start(c, s.msg.value.kind, s.msg.value.payload);
    assert t.started == s.started + [e];
    CommandRunsAppend(s.started, e, d);
    if d == c {
      assert HolderPc(s) == Pc(s, c);
      OwnSwitchOnce(s, t, c);
    }
  }

  lemma AnswerKeepsOnce(s: State, d: nat)
    requires Core(s) && (s.server.Answering? || s.server.Clearing?) && InCall(s, d) && OnceFor(s, d)
    requires s.server.Answering? ==> IsResponse(s.server.answer)
    ensures OnceFor(ServerNext(s), d)
  {
    assert ServerNext(s).started == s.started;
  }

  lemma ServerKeepsOnce(s: State, d: nat)
    requires Core(s) && ServerReady(s) && InCall(s, d) && OnceFor(s, d)
    requires s.server.Answering? ==> IsResponse(s.server.answer)
    ensures OnceFor(ServerNext(s), d)
  {
    if s.server.Switching? {
      SwitchKeepsOnce(s, d);
    } else if s.server.Answering? || s.server.Clearing? {
      AnswerKeepsOnce(s, d);
    } else {
      assert ServerNext(s).started == s.started && ServerNext(s).msg == s.msg;
    }
  }

  lemma OtherKeepsOnce(s: State, a: Action, d: nat)
    requires Core(s) && Enabled(s, a) && InCall(s, d) && OnceFor(s, d) && !a.ClientStep? && !a.ServerStep?
    ensures OnceFor(Apply(s, a), d)
  {
  }

  /** Requests never change, and only a switch adds to the log of what was dispatched. */
  lemma KeepsRequests(s: State, a: Action)
    requires Enabled(s, a)
    ensures SameRequests(s, Apply(s, a))
    ensures Apply(s, a).started == s.started || (a.ServerStep? && s.server.Switching?)
  {
  }

  lemma KeepsAsked(s: State, a: Action, e: Start)
    requires Inv(s) && Enabled(s, a) && e in Apply(s, a).started
    ensures Asked(Apply(s, a), e)
  {
    KeepsRequests(s, a);
    if e in s.started {
      assert Asked(s, e);
    } else {
      assert a.ServerStep? && s.server.Switching?;
    }
  }

  lemma KeepsAnswer(s: State, a: Action)
    requires Inv(s) && Enabled(s, a)
    ensures Apply(s, a).server.Answering? ==> IsResponse(Apply(s, a).server.answer)
  {
  }

  lemma KeepsOnce(s: State, a: Action)
    requires Inv(s) && Enabled(s, a)
    ensures Once(Apply(s, a))
  {
    forall d: nat | InCall(Apply(s, a), d)
      ensures OnceFor(Apply(s, a), d)
    {
      assert InCall(s, d) && OnceFor(s, d);
      match a
      case ClientStep(c) => ClientKeepsOnce(s, c, d);
      case ServerStep => ServerKeepsOnce(s, d);
      case _ => OtherKeepsOnce(s, a, d);
    }
    forall e | e in Apply(s, a).started
      ensures Asked(Apply(s, a), e)
    {
      KeepsAsked(s, a, e);
    }
    KeepsAnswer(s, a);
  }

  lemma OwnKeepsAnswered(s: State, c: nat, r: nat)
    requires Core(s) && ClientReady(s, c) && AnsweredIn(s, c, r)
    ensures AnsweredIn(ClientNext(s, c), c, r)
  {
    assert Pc(s, c).Waiting? || Pc(s, c).Testing? || Pc(s, c).Reading?;
  }

  lemma ClientKeepsAnswered(s: State, c: nat, d: nat, r: nat)
    requires Core(s) && ClientReady(s, c) && AnsweredIn(s, d, r)
    ensures AnsweredIn(ClientNext(s, c), d, r)
  {
    if d == c {
      OwnKeepsAnswered(s, c, r);
    } else {
      StepsAlone(s, c, d);
      ClientFrame(s, c, d);
    }
  }

  lemma OtherKeepsAnswered(s: State, a: Action, d: nat, r: nat)
    requires Core(s) && Enabled(s, a) && !a.ClientStep? && AnsweredIn(s, d, r)
    ensures AnsweredIn(Apply(s, a), d, r)
  {
  }

  lemma ClientKeepsPickup(s: State, c: nat)
    requires Core(s) && PickedUp(s) && ClientReady(s, c)
    ensures PickedUp(ClientNext(s, c))
  {
    if s.server.Handling? || s.server.Answering? || s.server.Clearing? {
      if s.server.call != c {
        StepsAlone(s, c, s.server.call);
      }
    }
  }

  lemma ServerKeepsPickup(s: State)
    requires Core(s) && PickedUp(s) && ServerReady(s)
    ensures PickedUp(ServerNext(s))
  {
  }

  lemma OtherKeepsPickup(s: State, a: Action)
    requires Core(s) && PickedUp(s) && Enabled(s, a) && !a.ClientStep? && !a.ServerStep?
    ensures PickedUp(Apply(s, a))
  {
  }

  lemma KeepsBudget(s: State, a: Action)
    requires Inv(s) && Enabled(s, a)
    ensures Budget(Apply(s, a))
  {
    var s' := Apply(s, a);
    if a.ClientStep? {
      ClientKeepsPickup(s, a.call);
    } else if a.ServerStep? {
      ServerKeepsPickup(s);
    } else {
      OtherKeepsPickup(s, a);
    }
    forall b | b in s'.answered && b.pickup.Some?
      ensures AnsweredIn(s', b.call, b.pickup.value)
    {
      if b in s.answered {
        if a.ClientStep? {
          ClientKeepsAnswered(s, a.call, b.call, b.pickup.value);
        } else {
          OtherKeepsAnswered(s, a, b.call, b.pickup.value);
        }
      }
    }
  }

  lemma KeepsInv(s: State, a: Action)
    requires Inv(s) && Enabled(s, a)
    ensures Inv(Apply(s, a))
  {
    KeepsCore(s, a);
    KeepsOnce(s, a);
    KeepsBudget(s, a);
  }

  lemma {:induction false} RunKeepsInv(s: State, acts: seq<Action>)
    requires Inv(s) && Exec(s, acts).Some?
    ensures Inv(Exec(s, acts).value)
    decreases |acts|
  {
    if acts != [] {
      RunKeepsInv(s, acts[..|acts| - 1]);
      KeepsInv(Exec(s, acts[..|acts| - 1]).value, acts[|acts| - 1]);
    }
  }

  // ---------------------------------------------------------------- what it promises of every run

  /** `s` is reached from the start by some run over some calls. */
  ghost predicate Reachable(s: State) {
    exists reqs, acts :: Exec(Init(reqs), acts) == Some(s)
  }

  lemma ReachableInv(s: State)
    requires Reachable(s)
    ensures Inv(s)
  {
    var reqs, acts :| Exec(Init(reqs), acts) == Some(s);
    InitKeeps(reqs);
    RunKeepsInv(Init(reqs), acts);
  }

  lemma {:induction false} RunsCountPairs(log: seq<Start>, c: nat, i: nat, j: nat)
    requires i <= j < |log| && log[i].call == log[j].call == c
    requires IsCommand(log[i].kind) && IsCommand(log[j].kind)
    ensures CommandRuns(log, c) >= if i < j then 2 else 1
    decreases |log|
  {
    var n := |log| - 1;
    if j < n {
      RunsCountPairs(log[..n], c, i, j);
    } else if i < j {
      RunsCountPairs(log[..n], c, i, i);
    }
  }

  /** No command runs twice for one call of `Notify`, whatever wakes up when. */
  lemma AtMostOnce(s: State, i: nat, j: nat)
    requires Reachable(s)
    requires i < j < |s.started| && s.started[i].call == s.started[j].call
    ensures !IsCommand(s.started[i].kind) || !IsCommand(s.started[j].kind)
    ensures Asked(s, s.started[i]) && Asked(s, s.started[j])
  {
    ReachableInv(s);
    assert Asked(s, s.started[i]) && OnceFor(s, s.started[i].call);
    if IsCommand(s.started[i].kind) && IsCommand(s.started[j].kind) {
      RunsCountPairs(s.started, s.started[i].call, i, j);
    }
  }

  /** A handler only ever works on a message that is still there, of a call that has not returned; no pointer to
      the message is followed after its destruction, and the name is never found taken. */
  lemma NoStaleMessage(s: State)
    requires Reachable(s)
    ensures !s.fault
    ensures s.server.Switching? || s.server.Handling? || s.server.Answering? || s.server.Clearing? ==>
      Owns(s, s.server.call) && InCall(s, s.server.call) && HasMsg(Pc(s, s.server.call))
    ensures forall c: nat :: InCall(s, c) && Pc(s, c).Constructing? ==> s.msg.None?
  {
    ReachableInv(s);
  }

  /** No lost wakeup, and a single outstanding message. */
  lemma NoLostWakeup(s: State)
    requires Reachable(s)
    ensures s.server == ServerWait(false) ==> !s.msgIn
    ensures forall c: nat :: IsAsleep(s, c) && !ServerInside(s.server) ==> s.msgIn
    ensures s.mutex.None? ==> s.msg.None?
  {
    ReachableInv(s);
  }

  /** A handler of any duration costs the waiting client at most one retry: a call answered after a pickup during
      wait `r` has counted at most `r + 1` retries, so one picked up during any of its first 99 waits is never
      reported as not responding. */
  lemma TimeoutBudget(s: State, a: Answer)
    requires Reachable(s) && a in s.answered && a.pickup.Some?
    ensures InCall(s, a.call)
    ensures var pc := Pc(s, a.call);
      && (pc.Testing? || pc.Waiting? || pc.Reading? ==> pc.retry <= a.pickup.value + 1)
      && (pc.Done? && a.pickup.value < 99 ==> pc.responding)
  {
    ReachableInv(s);
  }
}
