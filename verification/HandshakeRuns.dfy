/** Progress of the handshake, and runs that show which hypotheses its guarantees need. */
module HandshakeRuns {
  import opened Options
  import opened Handshake
  import opened HandshakeSafety

  // ---------------------------------------------------------------- progress

  /** The actions of the server thread. */
  predicate OfServer(a: Action) {
    a.ServerStep? || a.HandlerReturns? || a.NotifyOne?
  }

  function ServerActions(acts: seq<Action>): nat {
    if acts == [] then 0
    else ServerActions(acts[..|acts| - 1]) + if OfServer(acts[|acts| - 1]) then 1 else 0
  }

  /** Call `c` sleeps before every action of the run from `s`, and after the last. */
  ghost predicate SleepsThrough(s: State, acts: seq<Action>, c: nat)
    decreases |acts|
  {
    && (acts == [] || SleepsThrough(s, acts[..|acts| - 1], c))
    && Exec(s, acts).Some? && IsAsleep(Exec(s, acts).value, c)
  }

  /** How far the server is from notifying the client it will answer next. */
  function Distance(pc: ServerPc): nat {
    match pc
    case LoopTest => 9
    case Acquiring => 8
    case Checking => 7
    case ServerWait(_) => 7
    case Finding => 6
    case Switching(_) => 5
    case Handling(_, _) => 4
    case Answering(_, _, _) => 3
    case Clearing(_, _) => 2
    case NotifyingClient => 1
    case Exited => 0
  }

  /** While call `c` sleeps, every server action brings the server nearer to notifying it, whatever its handler
      returns, and no other action takes the server back. */
  lemma EveryActionAdvances(s: State, a: Action, c: nat)
    requires Inv(s) && IsAsleep(s, c) && !s.server.Exited? && Enabled(s, a) && IsAsleep(Apply(s, a), c)
    ensures var t := Apply(s, a);
      t.server.Exited? || Distance(t.server) + (if OfServer(a) then 1 else 0) <= Distance(s.server)
  {
    assert forall d: nat :: InCall(s, d) && HoldsMutex(Pc(s, d)) ==> d == c;
  }

  lemma ExitIsFinal(s: State, a: Action)
    requires s.server.Exited? && Enabled(s, a)
    ensures Apply(s, a).server.Exited?
  {
  }

  /** While call `c` sleeps, some server action is possible. */
  lemma ServerCanAct(s: State, c: nat)
    requires Inv(s) && IsAsleep(s, c) && !s.server.Exited?
    ensures exists a :: OfServer(a) && Enabled(s, a)
  {
    assert s.mutex == Some(c);
    var a := if s.server.Handling? then HandlerReturns(Fails)
             else if s.server.NotifyingClient? then NotifyOne(Some(c)) else ServerStep;
    assert OfServer(a) && Enabled(s, a);
  }

  /** No schedule that keeps the server running leaves a sleeper behind: in every run through which call `c` sleeps,
      whatever the handlers return and whoever else acts, the server is not blocked and has taken at most eight
      actions, unless it has exited. */
  lemma SleepIsShort(s: State, acts: seq<Action>, c: nat)
    requires Inv(s) && SleepsThrough(s, acts, c) && !Exec(s, acts).value.server.Exited?
    ensures ServerActions(acts) <= 8
    ensures exists a :: OfServer(a) && Enabled(Exec(s, acts).value, a)
  {
    SleepBrings(s, acts, c);
    ServerCanAct(Exec(s, acts).value, c);
  }

  lemma {:induction false} SleepBrings(s: State, acts: seq<Action>, c: nat)
    requires Inv(s) && SleepsThrough(s, acts, c) && !Exec(s, acts).value.server.Exited?
    ensures var t := Exec(s, acts).value;
      Inv(t) && ServerActions(acts) + Distance(t.server) <= Distance(s.server)
    decreases |acts|
  {
    if acts != [] {
      var rest, a := acts[..|acts| - 1], acts[|acts| - 1];
      var t := Exec(s, rest).value;
      if t.server.Exited? {
        ExitIsFinal(t, a);
        assert false;
      }
      SleepBrings(s, rest, c);
      EveryActionAdvances(t, a, c);
      KeepsInv(t, a);
    }
  }

  // ---------------------------------------------------------------- runs

  /** Nothing wakes up unasked, and nobody stops the server from outside. */
  predicate Natural(a: Action) {
    !a.ClientSpurious? && !a.ServerSpurious? && !a.ExternalStop?
  }

  /** Some run of natural actions leads to `s`. */
  ghost predicate Unforced(s: State) {
    exists reqs, acts :: Exec(Init(reqs), acts) == Some(s) && forall a :: a in acts ==> Natural(a)
  }

  lemma Advance(s: State, a: Action, t: State)
    requires Reachable(s) && Enabled(s, a) && Apply(s, a) == t
    ensures Reachable(t)
  {
    var reqs, acts :| Exec(Init(reqs), acts) == Some(s);
    assert (acts + [a])[..|acts|] == acts;
    assert Exec(Init(reqs), acts + [a]) == Some(t);
  }

  lemma Step(s: State, a: Action, t: State)
    requires Unforced(s) && Natural(a) && Enabled(s, a) && Apply(s, a) == t
    ensures Unforced(t)
  {
    var reqs, acts :| Exec(Init(reqs), acts) == Some(s) && forall a :: a in acts ==> Natural(a);
    assert (acts + [a])[..|acts|] == acts;
    assert Exec(Init(reqs), acts + [a]) == Some(t);
  }

  const DEMO: Request := Request(StartVm, "shm")

  /** Two calls that ask to start a VM, the first at `pc`, the second not begun. */
  function Two(pc: ClientPc): seq<Client> {
    [Client(DEMO, pc), Client(DEMO, Idle)]
  }

  /** A state in which only the first call has begun. */
  function Solo(pc: ClientPc, server: ServerPc, cond: Owner, msgIn: bool, kind: MsgType, payload: string): State {
    State(Two(pc), server, Some(0), cond, msgIn, Some(Msg(0, kind, payload)), false, false, [], [])
  }

  /** One call asleep in wait `k`, its request not yet picked up. */
  function Sleeping(k: nat): State {
    Solo(Waiting(k, Asleep), LoopTest, Free, true, StartVm, "shm")
  }

  /** One call about to write its type, with the server at `server`. */
  function Opened(server: ServerPc): State {
    Solo(WritingType, server, Free, false, Blank, "")
  }

  lemma OpenedReachable()
    ensures Unforced(Opened(LoopTest))
  {
    var s := Init([DEMO, DEMO]);
    assert s.clients == Two(Idle) && Exec(s, []) == Some(s);
    Step(s, ClientStep(0), s.(clients := Two(Constructing), mutex := Some(0)));
    Step(s.(clients := Two(Constructing), mutex := Some(0)), ClientStep(0), Opened(LoopTest));
  }

  /** The call's complete message, unanswered, with the call holding the condition mutex. */
  function Holding(pc: ClientPc, msgIn: bool): State {
    Solo(pc, LoopTest, ByClient(0), msgIn, StartVm, "shm")
  }

  lemma WrittenReachable()
    ensures Unforced(Solo(LockingCond, LoopTest, Free, false, StartVm, "shm"))
  {
    OpenedReachable();
    var half := Solo(WritingPayload, LoopTest, Free, false, StartVm, "");
    Step(Opened(LoopTest), ClientStep(0), half);
    Step(half, ClientStep(0), Solo(LockingCond, LoopTest, Free, false, StartVm, "shm"));
  }

  lemma NotifiedReachable()
    ensures Unforced(Holding(Flagging, false))
  {
    WrittenReachable();
    Step(Solo(LockingCond, LoopTest, Free, false, StartVm, "shm"), ClientStep(0), Holding(Notifying, false));
    Step(Holding(Notifying, false), ClientStep(0), Holding(Flagging, false));
  }

  lemma FirstSleep()
    ensures Unforced(Sleeping(0))
  {
    NotifiedReachable();
    Step(Holding(Flagging, false), ClientStep(0), Holding(Testing(0), true));
    Step(Holding(Testing(0), true), ClientStep(0), Sleeping(0));
  }

  lemma TimesOut(k: nat)
    requires Unforced(Sleeping(k))
    ensures Unforced(Holding(Testing(k + 1), true))
  {
    var late := Solo(Waiting(k, TimedOut), LoopTest, Free, true, StartVm, "shm");
    assert Apply(Sleeping(k), Timeout(0)).clients == late.clients;
    Step(Sleeping(k), Timeout(0), late);
    Step(late, ClientStep(0), Holding(Testing(k + 1), true));
  }

  lemma SleepLonger(k: nat)
    requires 0 < k < MAX_RETRY && Unforced(Sleeping(k - 1))
    ensures Unforced(Sleeping(k))
  {
    TimesOut(k - 1);
    Step(Holding(Testing(k), true), ClientStep(0), Sleeping(k));
  }

  lemma {:induction false} SleepReachable(k: nat)
    requires k < MAX_RETRY
    ensures Unforced(Sleeping(k))
  {
    if k == 0 {
      FirstSleep();
    } else {
      SleepReachable(k - 1);
      SleepLonger(k);
    }
  }

  /** The request picked up in the last wait, its handler running. */
  const PICKED_UP: State :=
    Solo(Waiting(MAX_RETRY - 1, Asleep), Handling(0, Some(MAX_RETRY - 1)), ByServer, true, StartVm, "shm").(
      started := [Start(0, StartVm, "shm")])

  lemma PickedUpReachable()
    ensures Reachable(PICKED_UP)
  {
    SleepReachable(MAX_RETRY - 1);
    var at := pc => Solo(Waiting(MAX_RETRY - 1, Asleep), pc, ByServer, true, StartVm, "shm");
    Advance(Sleeping(MAX_RETRY - 1), ServerStep, at(Acquiring).(cond := Free));
    Advance(at(Acquiring).(cond := Free), ServerStep, at(Checking));
    Advance(at(Checking), ServerStep, at(Finding));
    Advance(at(Finding), ServerStep, at(Switching(0)));
    Advance(at(Switching(0)), ServerStep, PICKED_UP);
  }

  /** The last wait timed out during the handler, whose answer found no sleeper to wake. */
  const ANSWERED_LATE: State :=
    Solo(Waiting(MAX_RETRY - 1, TimedOut), LoopTest, Free, false, RespondSuccess, "shm").(
      started := [Start(0, StartVm, "shm")], answered := [Answer(0, RespondSuccess, Some(MAX_RETRY - 1))])

  lemma AnsweredLateReachable()
    ensures Reachable(ANSWERED_LATE)
  {
    PickedUpReachable();
    var late := PICKED_UP.(clients := Two(Waiting(MAX_RETRY - 1, TimedOut)));
    var wait := Some(MAX_RETRY - 1);
    var done := late.(server := Clearing(0, wait), msg := Some(Msg(0, RespondSuccess, "shm")));
    Advance(PICKED_UP, Timeout(0), late);
    Advance(late, HandlerReturns(Succeeds), late.(server := Answering(0, RespondSuccess, wait)));
    Advance(late.(server := Answering(0, RespondSuccess, wait)), ServerStep, done);
    Advance(done, ServerStep, ANSWERED_LATE.(server := NotifyingClient, cond := ByServer));
    Advance(ANSWERED_LATE.(server := NotifyingClient, cond := ByServer), NotifyOne(None), ANSWERED_LATE);
  }

  /** Why the budget stops at 99 waits: a request picked up in the hundredth wait and answered with success is
      still reported as not responding. */
  lemma LateAnswer() returns (s: State)
    ensures Reachable(s) && InCall(s, 0) && Pc(s, 0) == Done(false, false)
    ensures s.answered == [Answer(0, RespondSuccess, Some(MAX_RETRY - 1))]
  {
    AnsweredLateReachable();
    var at := pc => ANSWERED_LATE.(clients := Two(pc), cond := ByClient(0));
    Advance(ANSWERED_LATE, ClientStep(0), at(Testing(MAX_RETRY)));
    Advance(at(Testing(MAX_RETRY)), ClientStep(0), at(Reading(MAX_RETRY)));
    s := at(Done(false, false)).(cond := Free, mutex := None, msg := None);
    Advance(at(Reading(MAX_RETRY)), ClientStep(0), s);
  }

  lemma WokenReachable()
    ensures Reachable(Holding(Reading(0), true))
  {
    FirstSleep();
    var woken := Solo(Waiting(0, Notified), LoopTest, Free, true, StartVm, "shm");
    Advance(Sleeping(0), ClientSpurious(0), woken);
    Advance(woken, ClientStep(0), Holding(Reading(0), true));
  }

  /** Why calm is needed on the client side: a spurious wakeup makes `Notify` return false although nothing was
      dispatched, and leaves the flag up with no message behind it. */
  lemma SpuriousClient() returns (s: State)
    ensures Reachable(s) && InCall(s, 0) && Pc(s, 0) == Done(false, true)
    ensures s.started == [] && s.msgIn && s.msg.None?
  {
    WokenReachable();
    s := Holding(Done(false, true), true).(mutex := None, cond := Free, msg := None);
    Advance(Holding(Reading(0), true), ClientStep(0), s);
  }

  /** One call that has written its type but not its payload, while the server is at `server`. */
  function HalfWritten(server: ServerPc): State {
    Solo(WritingPayload, server, Free, false, StartVm, "")
  }

  lemma HalfWrittenReachable()
    ensures Reachable(HalfWritten(ServerWait(false)))
  {
    OpenedReachable();
    Advance(Opened(LoopTest), ServerStep, Opened(Acquiring));
    Advance(Opened(Acquiring), ServerStep, Opened(Checking).(cond := ByServer));
    Advance(Opened(Checking).(cond := ByServer), ServerStep, Opened(ServerWait(false)));
    Advance(Opened(ServerWait(false)), ClientStep(0), HalfWritten(ServerWait(false)));
  }

  lemma HalfWrittenFound()
    ensures Reachable(HalfWritten(Finding).(cond := ByServer))
  {
    HalfWrittenReachable();
    Advance(HalfWritten(ServerWait(false)), ServerSpurious, HalfWritten(ServerWait(true)));
    Advance(HalfWritten(ServerWait(true)), ServerStep, HalfWritten(Finding).(cond := ByServer));
  }

  /** Why calm is needed on the server side: a spurious wakeup makes the dispatcher run a command whose payload is
      not written yet. */
  lemma SpuriousServer() returns (s: State)
    ensures Reachable(s)
    ensures s.started == [Start(0, StartVm, "")] && InCall(s, 0) && s.clients[0].req == Request(StartVm, "shm")
  {
    HalfWrittenFound();
    var switching := HalfWritten(Switching(0)).(cond := ByServer);
    Advance(HalfWritten(Finding).(cond := ByServer), ServerStep, switching);
    s := HalfWritten(Handling(0, None)).(cond := ByServer, started := [Start(0, StartVm, "")]);
    Advance(switching, ServerStep, s);
  }

  /** The first call has run out of retries unserved: its message is gone, the flag is still up, and the second call is
      at `pc` with the message `msg`. */
  function GaveUp(pc: ClientPc, mutex: Option<nat>, msg: Option<Msg>): State {
    State([Client(DEMO, Done(false, false)), Client(DEMO, pc)], LoopTest, mutex, Free, true, msg, false, false, [], [])
  }

  lemma GivesUp()
    requires Unforced(Holding(Reading(MAX_RETRY), true))
    ensures Unforced(GaveUp(Idle, None, None))
  {
    Step(Holding(Reading(MAX_RETRY), true), ClientStep(0), GaveUp(Idle, None, None));
  }

  lemma GaveUpUnforced()
    ensures Unforced(GaveUp(Idle, None, None))
  {
    SleepReachable(MAX_RETRY - 1);
    TimesOut(MAX_RETRY - 1);
    Step(Holding(Testing(MAX_RETRY), true), ClientStep(0), Holding(Reading(MAX_RETRY), true));
    GivesUp();
  }

  /** The second call has written its type, but not its payload. */
  function NextHalfWritten(server: ServerPc, cond: Owner): State {
    GaveUp(WritingPayload, Some(1), Some(Msg(1, StartVm, ""))).(server := server, cond := cond)
  }

  lemma NextHalfWrittenUnforced()
    ensures Unforced(NextHalfWritten(LoopTest, Free))
  {
    GaveUpUnforced();
    var begun := GaveUp(WritingType, Some(1), Some(Msg(1, Blank, "")));
    Step(GaveUp(Idle, None, None), ClientStep(1), GaveUp(Constructing, Some(1), None));
    Step(GaveUp(Constructing, Some(1), None), ClientStep(1), begun);
    Step(begun, ClientStep(1), NextHalfWritten(LoopTest, Free));
  }

  /** Why calm asks that no call runs out of retries: the flag such a call leaves up makes the server run the next
      call's command before its payload is written, without any spurious wakeup. */
  lemma LeftoverFlag() returns (s: State)
    ensures Unforced(s)
    ensures s.started == [Start(1, StartVm, "")] && InCall(s, 1) && s.clients[1].req == Request(StartVm, "shm")
  {
    NextHalfWrittenUnforced();
    Step(NextHalfWritten(LoopTest, Free), ServerStep, NextHalfWritten(Acquiring, Free));
    Step(NextHalfWritten(Acquiring, Free), ServerStep, NextHalfWritten(Checking, ByServer));
    Step(NextHalfWritten(Checking, ByServer), ServerStep, NextHalfWritten(Finding, ByServer));
    Step(NextHalfWritten(Finding, ByServer), ServerStep, NextHalfWritten(Switching(1), ByServer));
    s := NextHalfWritten(Handling(1, None), ByServer).(started := [Start(1, StartVm, "")]);
    Step(NextHalfWritten(Switching(1), ByServer), ServerStep, s);
  }
}
