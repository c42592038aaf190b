/** Exactly-once delivery: in a run without spurious wakeups, without an external stop and in which no call runs
    out of retries, every completed `Notify` had its complete message dispatched exactly once and returns true
    exactly when that dispatch left the success type. */
module HandshakeExactlyOnce {
  import opened Options
  import opened Handshake
  import opened HandshakeSafety

  /** The actions of a calm run: nothing wakes up unasked, and no call gives up. */
  predicate Calm(s: State, a: Action) {
    match a
    case ClientSpurious(_) => false
    case ServerSpurious => false
    case ExternalStop => false
    case ClientStep(c) => InCall(s, c) && Pc(s, c).Reading? ==> Pc(s, c).retry < MAX_RETRY
    case _ => true
  }

  predicate CalmRun(s: State, acts: seq<Action>)
    decreases |acts|
  {
    acts == [] ||
    (var t := Exec(s, acts[..|acts| - 1]);
     CalmRun(s, acts[..|acts| - 1]) && t.Some? && Calm(t.value, acts[|acts| - 1]))
  }

  /** What the dispatcher switched on, for call `c`, in order. */
  function StartsOf(log: seq<Start>, c: nat): seq<Start> {
    if log == [] then []
    else
      var last := log[|log| - 1];
      StartsOf(log[..|log| - 1], c) + if last.call == c then [last] else []
  }

  /** What the dispatcher answered to call `c`, in order. */
  function AnswersOf(log: seq<Answer>, c: nat): seq<Answer> {
    if log == [] then []
    else
      var last := log[|log| - 1];
      AnswersOf(log[..|log| - 1], c) + if last.call == c then [last] else []
  }

  /** The complete message of call `c`. */
  function Whole(s: State, c: nat): Start
    requires InCall(s, c)
  {
    Start(c, s.clients[c].req.kind, Clip(s.clients[c].req.payload))
  }

  // ---------------------------------------------------------------- the invariant of calm runs

  predicate Flagged(pc: ClientPc) {
    pc.Testing? || pc.Waiting? || pc.Reading?
  }

  predicate Dispatching(pc: ServerPc) {
    pc.Handling? || pc.Answering? || pc.Clearing?
  }

  /** The flag is up exactly from the holder's notification to the server's answer. */
  ghost predicate Flags(s: State) {
    && (s.server == ServerWait(true) ==> s.msgIn || HolderPc(s).Flagging?)
    && (s.server.Finding? || s.server.Switching? || Dispatching(s.server) ==> s.msgIn)
    && (s.server.NotifyingClient? ==> !s.msgIn)
    && (s.msgIn ==>
          var pc := HolderPc(s);
          || pc.Testing?
          || (pc.Waiting? && pc.wake != Notified)
          || (pc.Reading? && pc.retry >= MAX_RETRY))
  }

  /** The holder's message is complete once written, and keeps its type until it is dispatched. */
  ghost predicate Written(s: State) {
    s.msg.Some? && s.mutex.Some? && InCall(s, s.mutex.value) ==>
      var pc, req, m := HolderPc(s), s.clients[s.mutex.value].req, s.msg.value;
      && (pc.WritingPayload? || pc.LockingCond? || pc.Notifying? || pc.Flagging? ==> m.kind == req.kind)
      && (Flagged(pc) && s.msgIn && !Dispatching(s.server) && !s.server.Exited? ==> m.kind == req.kind)
      && (pc.LockingCond? || pc.Notifying? || pc.Flagging? || Flagged(pc) ==> m.payload == Clip(req.payload))
  }

  ghost predicate Logged(s: State, c: nat)
    requires InCall(s, c)
  {
    var starts, answers := StartsOf(s.started, c), AnswersOf(s.answered, c);
    match Pc(s, c)
    case Done(ok, responding) =>
      && responding && starts == [Whole(s, c)] && |answers| == 1
      && (ok <==> answers[0].kind == RespondSuccess)
    case _ =>
      if !Flagged(Pc(s, c)) then starts == [] && answers == []
      else if !s.msgIn then
        starts == [Whole(s, c)] && |answers| == 1 && Owns(s, c) && s.msg.value.kind == answers[0].kind
      else
        && answers == []
        && (Dispatching(s.server) ==> starts == [Whole(s, c)])
        && (!Dispatching(s.server) && !s.server.Exited? ==> starts == [])
  }

  ghost predicate CalmInv(s: State) {
    Inv(s) && Flags(s) && Written(s) && forall c: nat :: InCall(s, c) ==> Logged(s, c)
  }

  // ---------------------------------------------------------------- every calm action keeps it

  lemma StartsOfAppend(log: seq<Start>, e: Start, c: nat)
    ensures StartsOf(log + [e], c) == StartsOf(log, c) + if e.call == c then [e] else []
  {
    assert (log + [e])[..|log|] == log;
  }

  lemma AnswersOfAppend(log: seq<Answer>, e: Answer, c: nat)
    ensures AnswersOf(log + [e], c) == AnswersOf(log, c) + if e.call == c then [e] else []
  {
    assert (log + [e])[..|log|] == log;
  }

  lemma InitIsCalm(reqs: seq<Request>)
    ensures CalmInv(Init(reqs))
  {
    InitKeeps(reqs);
  }

  lemma ClientKeepsFlags(s: State, c: nat)
    requires Core(s) && Flags(s) && ClientReady(s, c) && Calm(s, ClientStep(c))
    ensures Flags(ClientNext(s, c))
  {
  }

  lemma ServerKeepsFlags(s: State)
    requires Core(s) && Flags(s) && ServerReady(s)
    ensures Flags(ServerNext(s))
  {
  }

  lemma OtherKeepsFlags(s: State, a: Action)
    requires Core(s) && Flags(s) && Enabled(s, a) && Calm(s, a) && !a.ClientStep? && !a.ServerStep?
    ensures Flags(Apply(s, a))
  {
  }

  lemma WritingKeepsWritten(s: State, c: nat)
    requires Core(s) && Flags(s) && Written(s) && ClientReady(s, c)
    requires Pc(s, c).Idle? || Pc(s, c).Constructing? || Pc(s, c).WritingType? || Pc(s, c).WritingPayload?
    ensures Written(ClientNext(s, c))
  {
    var t := ClientNext(s, c);
    assert t.mutex == Some(c) || t.msg.None?;
  }

  lemma ClientKeepsWritten(s: State, c: nat)
    requires Core(s) && Flags(s) && Written(s) && ClientReady(s, c) && Calm(s, ClientStep(c))
    ensures Written(ClientNext(s, c))
  {
    if Pc(s, c).Idle? || Pc(s, c).Constructing? || Pc(s, c).WritingType? || Pc(s, c).WritingPayload? {
      WritingKeepsWritten(s, c);
    } else {
      assert s.mutex == Some(c);
    }
  }

  lemma ServerKeepsWritten(s: State)
    requires Core(s) && Flags(s) && Written(s) && ServerReady(s)
    ensures Written(ServerNext(s))
  {
  }

  lemma OtherKeepsWritten(s: State, a: Action)
    requires Core(s) && Flags(s) && Written(s) && Enabled(s, a) && Calm(s, a) && !a.ClientStep? && !a.ServerStep?
    ensures Written(Apply(s, a))
  {
  }

  /** The log of a call reads the same wherever nothing it mentions has changed. */
  lemma SameLog(s: State, t: State, d: nat)
    requires InCall(s, d) && Logged(s, d) && SameRequests(s, t)
    requires Pc(t, d) == Pc(s, d) || (Pc(s, d).Waiting? && Pc(t, d).Waiting?)
    requires StartsOf(t.started, d) == StartsOf(s.started, d) && AnswersOf(t.answered, d) == AnswersOf(s.answered, d)
    requires Flagged(Pc(s, d)) ==>
      t.msgIn == s.msgIn && t.msg == s.msg && Dispatching(t.server) == Dispatching(s.server) &&
      (s.server.Exited? ==> t.server.Exited?)
    ensures Logged(t, d)
  {
  }

  lemma OpeningLogged(s: State, c: nat)
    requires Core(s) && Flags(s) && ClientReady(s, c) && Logged(s, c) && !Flagged(Pc(s, c))
    ensures Logged(ClientNext(s, c), c)
  {
  }

  lemma FlaggedLogged(s: State, c: nat)
    requires Core(s) && Flags(s) && ClientReady(s, c) && Logged(s, c) && (Pc(s, c).Testing? || Pc(s, c).Waiting?)
    ensures Logged(ClientNext(s, c), c)
  {
  }

  lemma ReadingLogged(s: State, c: nat)
    requires Core(s) && Flags(s) && ClientReady(s, c) && Logged(s, c)
    requires Pc(s, c).Reading? && Pc(s, c).retry < MAX_RETRY
    ensures Logged(ClientNext(s, c), c)
  {
  }

  lemma ClientKeepsLogged(s: State, c: nat, d: nat)
    requires Core(s) && Flags(s) && ClientReady(s, c) && Calm(s, ClientStep(c)) && InCall(s, d) && Logged(s, d)
    ensures Logged(ClientNext(s, c), d)
  {
    if d != c {
      StepsAlone(s, c, d);
      ClientFrame(s, c, d);
    } else if !Flagged(Pc(s, c)) {
      OpeningLogged(s, c);
    } else if Pc(s, c).Reading? {
      ReadingLogged(s, c);
    } else {
      FlaggedLogged(s, c);
    }
  }

  /** The message switched on is the holder's complete message, not yet dispatched. */
  lemma SwitchSeesWhole(s: State)
    requires Core(s) && Flags(s) && Written(s) && s.server.Switching?
    ensures Owns(s, s.server.call) && InCall(s, s.server.call) && s.msgIn && Flagged(Pc(s, s.server.call))
    ensures Start(s.server.call, s.msg.value.kind, s.msg.value.payload) == Whole(s, s.server.call)
  {
    assert HolderPc(s) == Pc(s, s.server.call);
  }

  /** A call whose complete message was just dispatched. */
  lemma NowLogged(s: State, t: State, c: nat)
    requires InCall(s, c) && Logged(s, c) && s.msgIn && Flagged(Pc(s, c)) && s.server.Switching?
    requires t.clients == s.clients && t.msgIn && t.answered == s.answered && Dispatching(t.server)
    requires StartsOf(t.started, c) == StartsOf(s.started, c) + [Whole(s, c)]
    ensures Logged(t, c)
  {
  }

  lemma SwitchLogsWhole(s: State)
    requires Core(s) && Flags(s) && Written(s) && s.server.Switching?
    requires InCall(s, s.server.call) && Logged(s, s.server.call)
    ensures Logged(Switch(s, s.server.call), s.server.call)
  {
    var c := s.server.call;
    SwitchSeesWhole(s);
    StartsOfAppend(s.started, Whole(s, c), c);
    NowLogged(s, Switch(s, c), c);
  }

  lemma SwitchKeepsLogged(s: State, d: nat)
    requires Core(s) && Flags(s) && Written(s) && s.server.Switching? && d != s.server.call
    requires InCall(s, d) && Logged(s, d)
    ensures Logged(Switch(s, s.server.call), d)
  {
    var c := s.server.call;
    SwitchSeesWhole(s);
    StartsOfAppend(s.started, Whole(s, c), d);
    assert !Flagged(Pc(s, d));
    assert StartsOf(Switch(s, c).started, d) == StartsOf(s.started, d);
  }

  /** A call whose dispatch was just answered. */
  lemma NowAnswered(s: State, t: State, c: nat, e: Answer)
    requires InCall(s, c) && Logged(s, c) && s.msgIn && Flagged(Pc(s, c)) && Dispatching(s.server) && Owns(s, c)
    requires t.clients == s.clients && !t.msgIn && t.started == s.started && t.msg == s.msg
    requires AnswersOf(t.answered, c) == AnswersOf(s.answered, c) + [e] && e.kind == s.msg.value.kind
    ensures Logged(t, c)
  {
  }

  lemma ClearOther(s: State, d: nat)
    requires Core(s) && s.server.Clearing? && InCall(s, d) && Logged(s, d) && d != s.server.call
    ensures Logged(ServerNext(s), d)
  {
    AnswersOfAppend(s.answered, Answer(s.server.call, s.msg.value.kind, s.server.pickup), d);
    assert !Flagged(Pc(s, d));
    SameLog(s, ServerNext(s), d);
  }

  lemma ClearOwn(s: State, c: nat)
    requires Core(s) && Flags(s) && s.server.Clearing? && s.server.call == c && InCall(s, c) && Logged(s, c)
    ensures Logged(ServerNext(s), c)
  {
    var e := Answer(c, s.msg.value.kind, s.server.pickup);
    AnswersOfAppend(s.answered, e, c);
    assert HolderPc(s) == Pc(s, c);
    NowAnswered(s, ServerNext(s), c, e);
  }

  lemma ClearKeepsLogged(s: State, d: nat)
    requires Core(s) && Flags(s) && s.server.Clearing? && InCall(s, d) && Logged(s, d)
    ensures Logged(ServerNext(s), d)
  {
    if d != s.server.call {
      ClearOther(s, d);
    } else {
      ClearOwn(s, d);
    }
  }

  lemma AnswerKeepsLogged(s: State, d: nat)
    requires Core(s) && Flags(s) && s.server.Answering? && InCall(s, d) && Logged(s, d)
    ensures Logged(ServerNext(s), d)
  {
  }

  lemma LookingKeepsLogged(s: State, d: nat)
    requires Core(s) && ServerReady(s) && !s.server.Switching? && !s.server.Answering? && !s.server.Clearing?
    requires InCall(s, d) && Logged(s, d)
    ensures Logged(ServerNext(s), d)
  {
    SameLog(s, ServerNext(s), d);
  }

  lemma ServerKeepsLogged(s: State, d: nat)
    requires Core(s) && Flags(s) && Written(s) && ServerReady(s) && InCall(s, d) && Logged(s, d)
    ensures Logged(ServerNext(s), d)
  {
    match s.server
    case Switching(c) => if d == c { SwitchLogsWhole(s); } else { SwitchKeepsLogged(s, d); }
    case Clearing(_, _) => ClearKeepsLogged(s, d);
    case Answering(_, _, _) => AnswerKeepsLogged(s, d);
    case _ => LookingKeepsLogged(s, d);
  }

  lemma ReturnKeepsLogged(s: State, outcome: Outcome, d: nat)
    requires Core(s) && Flags(s) && s.server.Handling? && InCall(s, d) && Logged(s, d)
    ensures Logged(Return(s, outcome), d)
  {
  }

  lemma TimeoutKeepsLogged(s: State, c: nat, d: nat)
    requires Core(s) && IsAsleep(s, c) && InCall(s, d) && Logged(s, d)
    ensures Logged(Apply(s, Timeout(c)), d)
  {
    SameLog(s, Apply(s, Timeout(c)), d);
  }

  lemma NotifyKeepsLogged(s: State, c: nat, d: nat)
    requires Enabled(s, NotifyOne(Some(c))) && InCall(s, d) && Logged(s, d)
    ensures Logged(Apply(s, NotifyOne(Some(c))), d)
  {
    var t := Apply(s, NotifyOne(Some(c)));
    assert t.clients == s.clients[c := t.clients[c]];
    SameLog(s, t, d);
  }

  lemma NobodyKeepsLogged(s: State, d: nat)
    requires Enabled(s, NotifyOne(None)) && InCall(s, d) && Logged(s, d)
    ensures Logged(Apply(s, NotifyOne(None)), d)
  {
    SameLog(s, Apply(s, NotifyOne(None)), d);
  }

  lemma ThrowKeepsLogged(s: State, c: nat, d: nat)
    requires Core(s) && Enabled(s, AllocThrows(c)) && InCall(s, d) && Logged(s, d)
    ensures Logged(Apply(s, AllocThrows(c)), d)
  {
    if d != c {
      SameLog(s, Apply(s, AllocThrows(c)), d);
    }
  }

  lemma OtherKeepsLogged(s: State, a: Action, d: nat)
    requires Core(s) && Flags(s) && Enabled(s, a) && Calm(s, a) && !a.ClientStep? && !a.ServerStep?
    requires InCall(s, d) && Logged(s, d)
    ensures Logged(Apply(s, a), d)
  {
    match a
    case HandlerReturns(outcome) => ReturnKeepsLogged(s, outcome, d);
    case AllocThrows(c) => ThrowKeepsLogged(s, c, d);
    case Timeout(c) => TimeoutKeepsLogged(s, c, d);
    case NotifyOne(None) => NobodyKeepsLogged(s, d);
    case NotifyOne(Some(c)) => NotifyKeepsLogged(s, c, d);
  }

  lemma KeepsFlags(s: State, a: Action)
    requires CalmInv(s) && Enabled(s, a) && Calm(s, a)
    ensures Flags(Apply(s, a)) && Written(Apply(s, a))
  {
    match a
    case ClientStep(c) => ClientKeepsFlags(s, c); ClientKeepsWritten(s, c);
    case ServerStep => ServerKeepsFlags(s); ServerKeepsWritten(s);
    case _ => OtherKeepsFlags(s, a); OtherKeepsWritten(s, a);
  }

  lemma KeepsLogged(s: State, a: Action)
    requires CalmInv(s) && Enabled(s, a) && Calm(s, a)
    ensures forall c: nat :: InCall(Apply(s, a), c) ==> Logged(Apply(s, a), c)
  {
    KeepsRequests(s, a);
    forall d: nat | InCall(Apply(s, a), d)
      ensures Logged(Apply(s, a), d)
    {
      assert InCall(s, d) && Logged(s, d);
      match a
      case ClientStep(c) => ClientKeepsLogged(s, c, d);
      case ServerStep => ServerKeepsLogged(s, d);
      case _ => OtherKeepsLogged(s, a, d);
    }
  }

  lemma KeepsCalm(s: State, a: Action)
    requires CalmInv(s) && Enabled(s, a) && Calm(s, a)
    ensures CalmInv(Apply(s, a))
  {
    KeepsInv(s, a);
    KeepsFlags(s, a);
    KeepsLogged(s, a);
  }

  lemma {:induction false} RunKeepsCalm(s: State, acts: seq<Action>)
    requires CalmInv(s) && Exec(s, acts).Some? && CalmRun(s, acts)
    ensures CalmInv(Exec(s, acts).value)
    decreases |acts|
  {
    if acts != [] {
      RunKeepsCalm(s, acts[..|acts| - 1]);
      KeepsCalm(Exec(s, acts[..|acts| - 1]).value, acts[|acts| - 1]);
    }
  }

  /** Some calm run of the calls `reqs` ends in `s`. */
  ghost predicate CalmlyReached(reqs: seq<Request>, s: State) {
    exists acts :: CalmRun(Init(reqs), acts) && Exec(Init(reqs), acts) == Some(s)
  }

  /** The exactly-once theorem. */
  lemma ExactlyOnce(reqs: seq<Request>, s: State, c: nat)
    requires CalmlyReached(reqs, s) && InCall(s, c) && Pc(s, c).Done?
    ensures c < |reqs|
    ensures StartsOf(s.started, c) == [Start(c, reqs[c].kind, Clip(reqs[c].payload))]
    ensures |AnswersOf(s.answered, c)| == 1
    ensures Pc(s, c).ok <==> AnswersOf(s.answered, c)[0].kind == RespondSuccess
  {
    var acts :| CalmRun(Init(reqs), acts) && Exec(Init(reqs), acts) == Some(s);
    InitIsCalm(reqs);
    RunKeepsCalm(Init(reqs), acts);
    RunKeepsRequests(Init(reqs), acts);
    assert Logged(s, c);
  }

  lemma {:induction false} RunKeepsRequests(s: State, acts: seq<Action>)
    requires Exec(s, acts).Some?
    ensures SameRequests(s, Exec(s, acts).value)
    decreases |acts|
  {
    if acts != [] {
      RunKeepsRequests(s, acts[..|acts| - 1]);
      KeepsRequests(Exec(s, acts[..|acts| - 1]).value, acts[|acts| - 1]);
    }
  }
}
