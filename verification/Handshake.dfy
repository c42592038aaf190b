/** The shared-memory request/response handshake between `Client::Notify` and the loop of `Server::Start`.

    Both sides share one client mutex, one condition mutex, two condition variables, the `msg_in` flag and one
    named message object.  Every access to shared state is one atomic action here; the scheduler, the clock, the
    handlers and spurious wakeups are nondeterministic.  A "call" is one invocation of `Notify`; any number of
    calls may be in progress. */
module Handshake {

  import opened Options

  const MAX_RETRY: nat := 100
  const PAYLOAD_SIZE: nat := 1024

  /** The message types, with `Blank` for the zero value a freshly constructed message holds. */
  datatype MsgType =
    | Blank
    | StopServer | ListVm | ImportVm | StartVm | StopVm | GetVmInfo
    | Test
    | RespondSuccess | RespondFail

  /** The types for which the dispatcher does work and overwrites the type with a response. */
  predicate IsCommand(t: MsgType) {
    t.StopServer? || t.ListVm? || t.ImportVm? || t.StartVm? || t.StopVm? || t.GetVmInfo?
  }

  predicate IsResponse(t: MsgType) {
    t.RespondSuccess? || t.RespondFail?
  }

  /** What one call of `Notify` asks for: the type and the name of the client's own shared memory. */
  datatype Request = Request(kind: MsgType, payload: string)

  /** The payload as `strncpy` leaves it in the fixed-size buffer. */
  function Clip(payload: string): string {
    if |payload| < PAYLOAD_SIZE then payload else payload[..PAYLOAD_SIZE - 1]
  }

  /** The payload keeps its first 1023 characters. */
  lemma ClipIsPrefix(payload: string)
    ensures Clip(payload) <= payload && |Clip(payload)| == if |payload| < 1023 then |payload| else 1023
  {
  }

  /** The named message object; `call` is the identity of the call that constructed it. */
  datatype Msg = Msg(call: nat, kind: MsgType, payload: string)

  datatype Wake = Asleep | Notified | TimedOut

  datatype ClientPc =
    | Idle                             // about to take the client mutex
    | Constructing                     // holds the client mutex from here to Reading
    | WritingType
    | WritingPayload
    | LockingCond
    | Notifying                        // holds the condition mutex as well
    | Flagging
    | Testing(retry: nat)
    | Waiting(retry: nat, wake: Wake)  // released the condition mutex
    | Reading(retry: nat)
    | Done(ok: bool, responding: bool) // returned; `responding` is false when the retries ran out
    | Refused                          // the name was taken, returned false
    | Threw                            // the allocation threw

  datatype Client = Client(req: Request, pc: ClientPc)

  /** `pickup` is the wait (numbered from 0) the call was in when its message was picked up, if it was waiting. */
  datatype ServerPc =
    | LoopTest
    | Acquiring
    | Checking                         // holds the condition mutex from here to NotifyingClient
    | ServerWait(woken: bool)          // except while it waits
    | Finding
    | Switching(call: nat)
    | Handling(call: nat, pickup: Option<nat>)
    | Answering(call: nat, answer: MsgType, pickup: Option<nat>)
    | Clearing(call: nat, pickup: Option<nat>)
    | NotifyingClient
    | Exited

  datatype Owner = Free | ByServer | ByClient(call: nat)

  /** One entry per message the dispatcher switched on, as it saw it. */
  datatype Start = Start(call: nat, kind: MsgType, payload: string)

  /** One entry per dispatch that ran to its end, with the type it left in the message. */
  datatype Answer = Answer(call: nat, kind: MsgType, pickup: Option<nat>)

  /** `fault` records a touch of the message object through a pointer that no longer denotes it. */
  datatype State = State(
    clients: seq<Client>,
    server: ServerPc,
    mutex: Option<nat>,
    cond: Owner,
    msgIn: bool,
    msg: Option<Msg>,
    stop: bool,
    fault: bool,
    started: seq<Start>,
    answered: seq<Answer>)

  datatype Outcome = Succeeds | Fails | Throws

  datatype Action =
    | ClientStep(call: nat)
    | AllocThrows(call: nat)
    | Timeout(call: nat)
    | ClientSpurious(call: nat)
    | ServerStep
    | HandlerReturns(outcome: Outcome)
    | NotifyOne(waiter: Option<nat>)
    | ServerSpurious
    | ExternalStop

  function Init(reqs: seq<Request>): State {
    State(seq(|reqs|, i requires 0 <= i < |reqs| => Client(reqs[i], Idle)),
          LoopTest, None, Free, false, None, false, false, [], [])
  }

  predicate InCall(s: State, c: nat) {
    c < |s.clients|
  }

  function Pc(s: State, c: nat): ClientPc
    requires InCall(s, c)
  {
    s.clients[c].pc
  }

  ghost predicate SameRequests(s: State, t: State) {
    |t.clients| == |s.clients| && forall c: nat :: c < |s.clients| ==> t.clients[c].req == s.clients[c].req
  }

  function Goto(s: State, c: nat, pc: ClientPc): State
    requires InCall(s, c)
  {
    s.(clients := s.clients[c := s.clients[c].(pc := pc)])
  }

  predicate Owns(s: State, c: nat) {
    s.msg.Some? && s.msg.value.call == c
  }

  predicate IsAsleep(s: State, c: nat) {
    InCall(s, c) && Pc(s, c).Waiting? && Pc(s, c).wake == Asleep
  }

  // ---------------------------------------------------------------- the client's program

  predicate ClientReady(s: State, c: nat) {
    InCall(s, c) &&
    match Pc(s, c)
    case Idle => s.mutex.None?
    case LockingCond => s.cond.Free?
    case Waiting(_, wake) => wake != Asleep && s.cond.Free?
    case Done(_, _) => false
    case Refused => false
    case Threw => false
    case _ => true
  }

  function ClientNext(s: State, c: nat): (t: State)
    requires ClientReady(s, c)
    ensures SameRequests(s, t) && t.started == s.started && t.answered == s.answered
    ensures t.server == s.server || t.server == ServerWait(true)
    ensures t.clients == s.clients[c := s.clients[c].(pc := Pc(t, c))]
  {
    match Pc(s, c)
    case Idle => Goto(s, c, Constructing).(mutex := Some(c))
    case Constructing =>
      if s.msg.None? then Goto(s, c, WritingType).(msg := Some(Msg(c, Blank, "")))
      else Goto(s, c, Refused).(mutex := None)
    case WritingType =>
      var s' := Goto(s, c, WritingPayload);
      if Owns(s, c) then s'.(msg := Some(s.msg.value.(kind := s.clients[c].req.kind))) else s'.(fault := true)
    case WritingPayload =>
      var s' := Goto(s, c, LockingCond);
      if Owns(s, c) then s'.(msg := Some(s.msg.value.(payload := Clip(s.clients[c].req.payload))))
      else s'.(fault := true)
    case LockingCond => Goto(s, c, Notifying).(cond := ByClient(c))
    case Notifying =>
      Goto(s, c, Flagging).(server := if s.server.ServerWait? then ServerWait(true) else s.server)
    case Flagging => Goto(s, c, Testing(0)).(msgIn := true)
    case Testing(r) =>
      if s.msgIn && r < MAX_RETRY then Goto(s, c, Waiting(r, Asleep)).(cond := Free)
      else Goto(s, c, Reading(r))
    case Waiting(r, wake) =>
      Goto(s, c, if wake == Notified then Reading(r) else Testing(r + 1)).(cond := ByClient(c))
    case Reading(r) =>
      var responding := r < MAX_RETRY;
      var ok := responding && Owns(s, c) && s.msg.value.kind == RespondSuccess;
      Goto(s, c, Done(ok, responding)).(
        msg := None, cond := Free, mutex := None, fault := s.fault || (responding && !Owns(s, c)))
  }

  // ---------------------------------------------------------------- the server's program

  predicate ServerReady(s: State) {
    match s.server
    case Acquiring => s.cond.Free?
    case ServerWait(woken) => woken && s.cond.Free?
    case Handling(_, _) => false
    case NotifyingClient => false
    case Exited => false
    case _ => true
  }

  /** The wait a call is in, if it is in one. */
  function WaitOf(s: State, c: nat): Option<nat> {
    if InCall(s, c) && Pc(s, c).Waiting? then Some(Pc(s, c).retry) else None
  }

  function Switch(s: State, c: nat): (t: State)
    ensures t.clients == s.clients && t.msgIn == s.msgIn && t.msg == s.msg && t.answered == s.answered
  {
    if !Owns(s, c) then s.(fault := true, server := NotifyingClient)
    else
      var m := s.msg.value;
      var s' := s.(started := s.started + [Start(c, m.kind, m.payload)]);
      if m.kind == StopServer then s'.(stop := true, server := Answering(c, RespondSuccess, WaitOf(s, c)))
      else if IsCommand(m.kind) then s'.(server := Handling(c, WaitOf(s, c)))
      else s'.(server := Clearing(c, WaitOf(s, c)))
  }

  function ServerNext(s: State): (t: State)
    requires ServerReady(s)
    ensures t.clients == s.clients && (t.started == s.started || s.server.Switching?)
  {
    match s.server
    case LoopTest => s.(server := if s.stop then Exited else Acquiring)
    case Acquiring => s.(server := Checking, cond := ByServer)
    case Checking =>
      if s.msgIn then s.(server := Finding) else s.(server := ServerWait(false), cond := Free)
    case ServerWait(_) => s.(server := Finding, cond := ByServer)
    case Finding =>
      if s.msg.None? then s.(server := LoopTest, cond := Free) else s.(server := Switching(s.msg.value.call))
    case Switching(c) => Switch(s, c)
    case Answering(c, answer, pickup) =>
      var s' := s.(server := Clearing(c, pickup));
      if Owns(s, c) then s'.(msg := Some(s.msg.value.(kind := answer))) else s'.(fault := true)
    case Clearing(c, pickup) =>
      var s' := s.(server := NotifyingClient, msgIn := false);
      if Owns(s, c) then s'.(answered := s.answered + [Answer(c, s.msg.value.kind, pickup)])
      else s'.(fault := true)
  }

  function Return(s: State, outcome: Outcome): State
    requires s.server.Handling?
  {
    match outcome
    case Succeeds => s.(server := Answering(s.server.call, RespondSuccess, s.server.pickup))
    case Fails => s.(server := Answering(s.server.call, RespondFail, s.server.pickup))
    case Throws => s.(server := Exited, cond := Free)
  }

  // ---------------------------------------------------------------- actions and runs

  predicate Enabled(s: State, a: Action) {
    match a
    case ClientStep(c) => ClientReady(s, c)
    case AllocThrows(c) => InCall(s, c) && Pc(s, c).Constructing?
    case Timeout(c) => IsAsleep(s, c)
    case ClientSpurious(c) => IsAsleep(s, c)
    case ServerStep => ServerReady(s)
    case HandlerReturns(_) => s.server.Handling?
    case NotifyOne(None) => s.server.NotifyingClient? && forall c: nat | c < |s.clients| :: !IsAsleep(s, c)
    case NotifyOne(Some(c)) => s.server.NotifyingClient? && IsAsleep(s, c)
    case ServerSpurious => s.server == ServerWait(false)
    case ExternalStop => !s.server.Exited?
  }

  function Apply(s: State, a: Action): State
    requires Enabled(s, a)
  {
    match a
    case ClientStep(c) => ClientNext(s, c)
    case AllocThrows(c) => Goto(s, c, Threw).(mutex := None)
    case Timeout(c) => Goto(s, c, Pc(s, c).(wake := TimedOut))
    case ClientSpurious(c) => Goto(s, c, Pc(s, c).(wake := Notified))
    case ServerStep => ServerNext(s)
    case HandlerReturns(outcome) => Return(s, outcome)
    case NotifyOne(None) => s.(server := LoopTest, cond := Free)
    case NotifyOne(Some(c)) => Goto(s, c, Pc(s, c).(wake := Notified)).(server := LoopTest, cond := Free)
    case ServerSpurious => s.(server := ServerWait(true))
    case ExternalStop => s.(stop := true, server := if s.server.ServerWait? then ServerWait(true) else s.server)
  }

  /** The state a run of actions leads to, or None when some action of it was not enabled. */
  function Exec(s: State, acts: seq<Action>): Option<State>
    decreases |acts|
  {
    if acts == [] then Some(s)
    else
      match Exec(s, acts[..|acts| - 1])
      case None => None
      case Some(t) => if Enabled(t, acts[|acts| - 1]) then Some(Apply(t, acts[|acts| - 1])) else None
  }
}
