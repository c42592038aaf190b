/** What `Notify` returns in a calm run: what the handler of its command returned. */
module HandshakeOutcomes {
  import opened Options
  import opened Handshake
  import opened HandshakeSafety
  import opened HandshakeExactlyOnce
  import opened HandshakeTruth

  /** The type left in the message of call `c` after its dispatch: a response to a command, anything else as it was. */
  predicate Left(s: State, c: nat, kind: MsgType) {
    InCall(s, c) && if IsCommand(s.clients[c].req.kind) then IsResponse(kind) else kind == s.clients[c].req.kind
  }

  ghost predicate Kinds(s: State) {
    && (s.server.Handling? || s.server.Answering? ==>
          InCall(s, s.server.call) && IsCommand(s.clients[s.server.call].req.kind))
    && (s.server.Clearing? ==> Owns(s, s.server.call) && Left(s, s.server.call, s.msg.value.kind))
    && (forall a :: a in s.answered ==> Left(s, a.call, a.kind))
  }

  lemma ClientKeepsKinds(s: State, c: nat)
    requires Core(s) && Flags(s) && Kinds(s) && ClientReady(s, c) && Calm(s, ClientStep(c))
    ensures Kinds(ClientNext(s, c))
  {
    var t := ClientNext(s, c);
    assert forall d: nat, kind :: Left(t, d, kind) <==> Left(s, d, kind);
  }

  lemma ServerKeepsKinds(s: State)
    requires Inv(s) && Flags(s) && Written(s) && Kinds(s) && ServerReady(s)
    ensures Kinds(ServerNext(s))
  {
    var t := ServerNext(s);
    assert forall d: nat, kind :: Left(t, d, kind) <==> Left(s, d, kind);
    if s.server.Switching? {
      SwitchSeesWhole(s);
    }
  }

  lemma OtherKeepsKinds(s: State, a: Action)
    requires Core(s) && Kinds(s) && Enabled(s, a) && !a.ClientStep? && !a.ServerStep?
    ensures Kinds(Apply(s, a))
  {
    KeepsRequests(s, a);
    assert forall d: nat, kind :: Left(Apply(s, a), d, kind) <==> Left(s, d, kind);
  }

  lemma {:induction false} RunKeepsKinds(reqs: seq<Request>, acts: seq<Action>)
    requires CalmRun(Init(reqs), acts) && Exec(Init(reqs), acts).Some?
    ensures Kinds(Exec(Init(reqs), acts).value)
    decreases |acts|
  {
    if acts != [] {
      var t, a := Exec(Init(reqs), acts[..|acts| - 1]).value, acts[|acts| - 1];
      RunKeepsKinds(reqs, acts[..|acts| - 1]);
      InitIsCalm(reqs);
      RunKeepsCalm(Init(reqs), acts[..|acts| - 1]);
      match a
      case ClientStep(c) => ClientKeepsKinds(t, c);
      case ServerStep => ServerKeepsKinds(t);
      case _ => OtherKeepsKinds(t, a);
    }
  }

  lemma {:induction false} AnswersAreLogged(log: seq<Answer>, c: nat)
    ensures forall a :: a in AnswersOf(log, c) ==> a in log && a.call == c
    decreases |log|
  {
    if log != [] {
      AnswersAreLogged(log[..|log| - 1], c);
    }
  }

  /** A call of a type that is no command ran none. */
  lemma NoCommandNoRun(s: State, c: nat)
    requires Once(s) && InCall(s, c) && !IsCommand(s.clients[c].req.kind)
    ensures !Ran(s, c)
  {
    if Ran(s, c) {
      RunsAreLogged(s.started, c);
    }
  }

  /** What a call that asked for `kind` returns. */
  predicate Returning(kind: MsgType, ok: bool, outcomes: seq<Outcome>) {
    if HasHandler(kind) then (ok && outcomes == [Succeeds]) || (!ok && outcomes == [Fails])
    else outcomes == [] && (ok <==> kind == StopServer || kind == RespondSuccess)
  }

  lemma DoneTells(s: State, log: seq<Returned>, c: nat)
    requires Inv(s) && Kinds(s) && Earned(s, log) && InCall(s, c) && Pc(s, c).Done? && Logged(s, c)
    ensures Returning(s.clients[c].req.kind, Pc(s, c).ok, OutcomesOf(log, c))
  {
    var a := AnswersOf(s.answered, c)[0];
    AnswersAreLogged(s.answered, c);
    assert a in AnswersOf(s.answered, c) && Left(s, c, a.kind);
    if !IsCommand(s.clients[c].req.kind) {
      NoCommandNoRun(s, c);
    } else {
      assert Honest(s, c) && Right(s, log, c, a.kind);
    }
  }

  /** In every calm run, a completed `Notify` returns what its handler returned, for every command that has one; a stop
      of the server returns true; a type the dispatcher does not know returns false, and a response type itself is
      taken for the answer. */
  lemma ReturnsOutcome(reqs: seq<Request>, acts: seq<Action>, s: State, c: nat)
    requires CalmRun(Init(reqs), acts) && Exec(Init(reqs), acts) == Some(s) && InCall(s, c) && Pc(s, c).Done?
    ensures c < |reqs| && Returning(reqs[c].kind, Pc(s, c).ok, OutcomesOf(Returns(Init(reqs), acts), c))
  {
    InitIsCalm(reqs);
    RunKeepsCalm(Init(reqs), acts);
    RunKeepsRequests(Init(reqs), acts);
    RunKeepsKinds(reqs, acts);
    RunKeepsEarned(reqs, acts);
    DoneTells(s, Returns(Init(reqs), acts), c);
  }
}
