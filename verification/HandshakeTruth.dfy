/** What a return value proves about the handler, whatever the scheduler does: behind true stands one run of the command
    asked for, and a handler that succeeded. */
module HandshakeTruth {
  import opened Options
  import opened Handshake
  import opened HandshakeSafety

  // ---------------------------------------------------------------- what the handlers returned

  /** One entry per handler that returned or threw. */
  datatype Returned = Returned(call: nat, outcome: Outcome)

  function Noted(s: State, a: Action): seq<Returned> {
    if a.HandlerReturns? && s.server.Handling? then [Returned(s.server.call, a.outcome)] else []
  }

  /** What the handlers returned over a run from `s`, read off its actions. */
  function Returns(s: State, acts: seq<Action>): seq<Returned>
    decreases |acts|
  {
    if acts == [] then []
    else
      var t := Exec(s, acts[..|acts| - 1]);
      Returns(s, acts[..|acts| - 1]) + if t.Some? then Noted(t.value, acts[|acts| - 1]) else []
  }

  /** What the handlers of call `c` returned, in order. */
  function OutcomesOf(log: seq<Returned>, c: nat): seq<Outcome> {
    if log == [] then []
    else
      var last := log[|log| - 1];
      OutcomesOf(log[..|log| - 1], c) + if last.call == c then [last.outcome] else []
  }

  lemma OutcomesOfAppend(log: seq<Returned>, e: Returned, c: nat)
    ensures OutcomesOf(log + [e], c) == OutcomesOf(log, c) + if e.call == c then [e.outcome] else []
  {
    assert (log + [e])[..|log|] == log;
  }

  // ---------------------------------------------------------------- the invariant

  /** The dispatcher has run a command of call `c`. */
  predicate Ran(s: State, c: nat) {
    CommandRuns(s.started, c) >= 1
  }

  /** Call `c` asks for something that is not itself a response. */
  predicate Honest(s: State, c: nat) {
    InCall(s, c) && !IsResponse(s.clients[c].req.kind)
  }

  /** The response `kind` to a call that asked for `asked` tells what its handlers returned: a stop of the server needs
      none, any other command exactly one. */
  predicate Tells(kind: MsgType, outcomes: seq<Outcome>, asked: MsgType) {
    if asked == StopServer then kind == RespondSuccess && outcomes == []
    else
      || (kind == RespondSuccess && outcomes == [Succeeds])
      || (kind == RespondFail && outcomes == [Fails])
  }

  predicate Right(s: State, log: seq<Returned>, c: nat, kind: MsgType) {
    InCall(s, c) && Ran(s, c) && Tells(kind, OutcomesOf(log, c), s.clients[c].req.kind)
  }

  /** The handler that is running has a command to run and has not returned. */
  predicate Pristine(s: State, log: seq<Returned>, c: nat) {
    InCall(s, c) && Ran(s, c) && OutcomesOf(log, c) == [] && !s.clients[c].req.kind.StopServer? &&
    IsCommand(s.clients[c].req.kind)
  }

  /** Every answer under way, every response in the message, every answer given and every true return value is right. */
  ghost predicate Earned(s: State, log: seq<Returned>) {
    && (s.server.Handling? ==> Pristine(s, log, s.server.call))
    && (s.server.Answering? ==> Right(s, log, s.server.call, s.server.answer))
    && (s.msg.Some? && IsResponse(s.msg.value.kind) && Honest(s, s.msg.value.call) ==>
          Right(s, log, s.msg.value.call, s.msg.value.kind))
    && (forall a :: a in s.answered && IsResponse(a.kind) && Honest(s, a.call) ==> Right(s, log, a.call, a.kind))
    && (forall c: nat :: Honest(s, c) && Pc(s, c).Done? && Pc(s, c).ok ==>
          Pc(s, c).responding && Right(s, log, c, RespondSuccess))
    && (forall c: nat :: !Ran(s, c) ==> OutcomesOf(log, c) == [])
  }

  lemma RightStays(s: State, t: State, log: seq<Returned>, c: nat, kind: MsgType)
    requires SameRequests(s, t) && t.started == s.started
    ensures Right(t, log, c, kind) <==> Right(s, log, c, kind)
    ensures Pristine(t, log, c) <==> Pristine(s, log, c)
  {
  }

  /** A client writes no response into its message unless it asks with one. */
  lemma ClientWritesNoResponse(s: State, c: nat)
    requires Core(s) && ClientReady(s, c)
    ensures var t := ClientNext(s, c);
      t.msg.Some? && IsResponse(t.msg.value.kind) && Honest(t, t.msg.value.call) ==>
      s.msg.Some? && s.msg.value.call == t.msg.value.call && s.msg.value.kind == t.msg.value.kind
  {
  }

  /** A call returns true only with a success in its own message and within its retries. */
  lemma ClientReturnsMessage(s: State, c: nat, d: nat)
    requires Core(s) && ClientReady(s, c) && InCall(s, d)
    ensures var t := ClientNext(s, c);
      Pc(t, d).Done? && Pc(t, d).ok ==>
      || Pc(t, d) == Pc(s, d)
      || (Pc(t, d).responding && Owns(s, d) && s.msg.value.kind == RespondSuccess)
  {
    if d != c {
      assert ClientNext(s, c).clients[d] == s.clients[d];
    }
  }

  lemma ClientKeepsEarned(s: State, log: seq<Returned>, c: nat)
    requires Core(s) && Earned(s, log) && ClientReady(s, c)
    ensures Earned(ClientNext(s, c), log)
  {
    var t := ClientNext(s, c);
    forall d: nat, kind
      ensures Right(t, log, d, kind) <==> Right(s, log, d, kind)
      ensures Pristine(t, log, d) <==> Pristine(s, log, d)
    {
      RightStays(s, t, log, d, kind);
    }
    assert forall d: nat :: Honest(t, d) <==> Honest(s, d);
    ClientWritesNoResponse(s, c);
    forall d: nat | Honest(t, d) && Pc(t, d).Done? && Pc(t, d).ok
      ensures Pc(t, d).responding && Right(s, log, d, RespondSuccess)
    {
      ClientReturnsMessage(s, c, d);
    }
  }

  lemma SwitchKeepsEarned(s: State, log: seq<Returned>)
    requires Inv(s) && Earned(s, log) && s.server.Switching?
    ensures Earned(ServerNext(s), log)
  {
    var t, c := ServerNext(s), s.server.call;
    var e := Start(c, s.msg.value.kind, s.msg.value.payload);
    assert t.started == s.started + [e];
    forall d: nat
      ensures CommandRuns(t.started, d) == CommandRuns(s.started, d) + if e.call == d && IsCommand(e.kind) then 1 else 0
    {
      CommandRunsAppend(s.started, e, d);
    }
    assert forall d: nat :: Honest(t, d) <==> Honest(s, d);
    assert forall d: nat :: Ran(s, d) ==> Ran(t, d);
    assert forall d: nat, kind :: Right(s, log, d, kind) ==> Right(t, log, d, kind);
    if IsCommand(e.kind) {
      KeepsOnce(s, ServerStep);
      assert OnceFor(t, c) && !Ran(s, c);
    }
  }

  lemma ServerKeepsEarned(s: State, log: seq<Returned>)
    requires Inv(s) && Earned(s, log) && ServerReady(s)
    ensures Earned(ServerNext(s), log)
  {
    if s.server.Switching? {
      SwitchKeepsEarned(s, log);
    } else {
      var t := ServerNext(s);
      assert t.started == s.started && t.clients == s.clients;
      assert forall d: nat :: Honest(t, d) <==> Honest(s, d);
      assert forall d: nat, kind :: Right(t, log, d, kind) <==> Right(s, log, d, kind);
      assert forall d: nat :: Ran(t, d) <==> Ran(s, d);
    }
  }

  lemma ReturnKeepsEarned(s: State, log: seq<Returned>, outcome: Outcome)
    requires Core(s) && Earned(s, log) && s.server.Handling?
    ensures Earned(Return(s, outcome), log + [Returned(s.server.call, outcome)])
  {
    var t, c, log' := Return(s, outcome), s.server.call, log + [Returned(s.server.call, outcome)];
    forall d: nat
      ensures OutcomesOf(log', d) == OutcomesOf(log, d) + if d == c then [outcome] else []
    {
      OutcomesOfAppend(log, Returned(c, outcome), d);
    }
    assert forall d: nat :: Honest(t, d) <==> Honest(s, d);
    assert forall d: nat :: Ran(t, d) <==> Ran(s, d);
    assert forall d: nat, kind :: Right(s, log, d, kind) ==> d != c && Right(t, log', d, kind);
  }

  lemma OtherKeepsEarned(s: State, log: seq<Returned>, a: Action)
    requires Core(s) && Earned(s, log) && Enabled(s, a)
    requires !a.ClientStep? && !a.ServerStep? && !a.HandlerReturns?
    ensures Earned(Apply(s, a), log)
  {
    var t := Apply(s, a);
    KeepsRequests(s, a);
    forall d: nat, kind
      ensures Right(t, log, d, kind) <==> Right(s, log, d, kind)
      ensures Pristine(t, log, d) <==> Pristine(s, log, d)
    {
      RightStays(s, t, log, d, kind);
    }
    assert forall d: nat :: Honest(t, d) <==> Honest(s, d);
  }

  lemma KeepsEarned(s: State, log: seq<Returned>, a: Action)
    requires Inv(s) && Earned(s, log) && Enabled(s, a)
    ensures Earned(Apply(s, a), log + Noted(s, a))
  {
    assert log + [] == log;
    match a
    case ClientStep(c) => ClientKeepsEarned(s, log, c);
    case ServerStep => ServerKeepsEarned(s, log);
    case HandlerReturns(outcome) => ReturnKeepsEarned(s, log, outcome);
    case _ => OtherKeepsEarned(s, log, a);
  }

  lemma {:induction false} RunKeepsEarned(reqs: seq<Request>, acts: seq<Action>)
    requires Exec(Init(reqs), acts).Some?
    ensures Earned(Exec(Init(reqs), acts).value, Returns(Init(reqs), acts))
    decreases |acts|
  {
    if acts != [] {
      RunKeepsEarned(reqs, acts[..|acts| - 1]);
      InitKeeps(reqs);
      RunKeepsInv(Init(reqs), acts[..|acts| - 1]);
      KeepsEarned(Exec(Init(reqs), acts[..|acts| - 1]).value, Returns(Init(reqs), acts[..|acts| - 1]), acts[|acts| - 1]);
    }
  }

  // ---------------------------------------------------------------- what true proves

  lemma {:induction false} RunsAreLogged(log: seq<Start>, c: nat)
    requires CommandRuns(log, c) >= 1
    ensures exists e :: e in log && e.call == c && IsCommand(e.kind)
    decreases |log|
  {
    var last := log[|log| - 1];
    if last.call == c && IsCommand(last.kind) {
      assert last in log;
    } else {
      RunsAreLogged(log[..|log| - 1], c);
    }
  }

  /** The commands that have a handler. */
  predicate HasHandler(kind: MsgType) {
    kind in {ListVm, ImportVm, StartVm, StopVm, GetVmInfo}
  }

  /** After every run, under any wakeups, timeouts, throws and stops: a `Notify` that returned true asked for a command,
      the dispatcher ran that command for it exactly once, and its handler succeeded; only a stop of the server has
      no handler. */
  lemma TrueMeansRanOnce(reqs: seq<Request>, acts: seq<Action>, s: State, c: nat)
    requires Exec(Init(reqs), acts) == Some(s) && Honest(s, c) && Pc(s, c).Done? && Pc(s, c).ok
    ensures Pc(s, c).responding && CommandRuns(s.started, c) == 1
    ensures var kind, outcomes := s.clients[c].req.kind, OutcomesOf(Returns(Init(reqs), acts), c);
      (kind == StopServer && outcomes == []) || (HasHandler(kind) && outcomes == [Succeeds])
  {
    InitKeeps(reqs);
    RunKeepsInv(Init(reqs), acts);
    RunKeepsEarned(reqs, acts);
    assert OnceFor(s, c);
    RunsAreLogged(s.started, c);
    var e :| e in s.started && e.call == c && IsCommand(e.kind);
    assert Asked(s, e);
  }

  // ---------------------------------------------------------------- the end of the loop

  ghost predicate StopDispatched(s: State) {
    exists e :: e in s.started && e.kind == StopServer
  }

  lemma StopStep(s: State, a: Action)
    requires Core(s) && Enabled(s, a) && (s.stop <== StopDispatched(s))
    ensures Apply(s, a).stop <==> s.stop || a.ExternalStop? || StopDispatched(Apply(s, a))
    ensures StopDispatched(s) ==> StopDispatched(Apply(s, a))
  {
    var t := Apply(s, a);
    KeepsRequests(s, a);
    if a.ServerStep? && s.server.Switching? {
      var e := Start(s.server.call, s.msg.value.kind, s.msg.value.payload);
      assert t.started == s.started + [e];
      assert e in t.started && forall o :: o in s.started ==> o in t.started;
    }
  }

  /** After every run, the server has been told to stop exactly if a request to stop it was dispatched or it was stopped
      from outside; and it leaves its loop at the next test exactly then. */
  lemma {:induction false} StopIsExact(reqs: seq<Request>, acts: seq<Action>)
    requires Exec(Init(reqs), acts).Some?
    ensures var s := Exec(Init(reqs), acts).value;
      && (s.stop <==> StopDispatched(s) || ExternalStop in acts)
      && (s.server.LoopTest? ==>
            (Apply(s, ServerStep).server.Exited? <==> StopDispatched(s) || ExternalStop in acts))
    decreases |acts|
  {
    if acts != [] {
      var rest, a := acts[..|acts| - 1], acts[|acts| - 1];
      StopIsExact(reqs, rest);
      InitKeeps(reqs);
      RunKeepsInv(Init(reqs), rest);
      StopStep(Exec(Init(reqs), rest).value, a);
      assert acts == rest + [a];
    }
  }
}
