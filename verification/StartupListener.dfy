/** The listener that VMs call when they are up: a map from context id to the callback of the VM that waits. */
module StartupListener {

  /** What happened to the listener, oldest first.  A waiter is the identity of the builder whose callback it is. */
  datatype Event = Added(cid: nat, waiter: nat) | Reported(cid: nat, waiter: nat)

  function Next(m: map<nat, nat>, e: Event): map<nat, nat> {
    if e.Added? then m[e.cid := e.waiter] else m - {e.cid}
  }

  /** The callbacks registered and not since reported ready, read off the history alone. */
  function Outstanding(log: seq<Event>): map<nat, nat> {
    if log == [] then map[] else Next(Outstanding(log[..|log| - 1]), log[|log| - 1])
  }

  /** `waiter` registered under `cid`, and nothing was registered or reported under that id since. */
  ghost predicate StillWaits(log: seq<Event>, cid: nat, waiter: nat) {
    exists i :: 0 <= i < |log| && log[i] == Added(cid, waiter) && forall j :: i < j < |log| ==> log[j].cid != cid
  }

  lemma {:induction false} OutstandingExact(log: seq<Event>, cid: nat, waiter: nat)
    ensures cid in Outstanding(log) && Outstanding(log)[cid] == waiter <==> StillWaits(log, cid, waiter)
    decreases |log|
  {
    if log != [] {
      var n := |log| - 1;
      var rest := log[..n];
      if log[n].cid != cid {
        OutstandingExact(rest, cid, waiter);
        if StillWaits(rest, cid, waiter) {
          var i :| 0 <= i < n && rest[i] == Added(cid, waiter) && forall j :: i < j < n ==> rest[j].cid != cid;
          assert log[i] == Added(cid, waiter);
        }
        if StillWaits(log, cid, waiter) {
          var i :| 0 <= i < |log| && log[i] == Added(cid, waiter) && forall j :: i < j < |log| ==> log[j].cid != cid;
          assert rest[i] == Added(cid, waiter);
        }
      } else if log[n] == Added(cid, waiter) {
        assert StillWaits(log, cid, waiter);
      }
    }
  }

  /** Every report fired the callback that was outstanding for its id at that moment. */
  ghost predicate Lawful(log: seq<Event>) {
    log == [] ||
    (var last, rest := log[|log| - 1], log[..|log| - 1];
     Lawful(rest) &&
     (last.Reported? ==> last.cid in Outstanding(rest) && Outstanding(rest)[last.cid] == last.waiter))
  }

  lemma Append(log: seq<Event>, e: Event)
    requires Lawful(log)
    requires e.Reported? ==> e.cid in Outstanding(log) && Outstanding(log)[e.cid] == e.waiter
    ensures Outstanding(log + [e]) == Next(Outstanding(log), e) && Lawful(log + [e])
    ensures forall w :: Adds(log + [e], w) == Adds(log, w) + if e.Added? && e.waiter == w then 1 else 0
  {
    assert (log + [e])[..|log|] == log;
  }

  /** What a peer address parses to. */
  datatype Peer = Vsock(cid: nat) | OtherAddress

  function Adds(log: seq<Event>, waiter: nat): nat {
    if log == [] then 0
    else Adds(log[..|log| - 1], waiter)
         + if log[|log| - 1].Added? && log[|log| - 1].waiter == waiter then 1 else 0
  }

  function Fires(log: seq<Event>, waiter: nat): nat {
    if log == [] then 0
    else Fires(log[..|log| - 1], waiter)
         + if log[|log| - 1].Reported? && log[|log| - 1].waiter == waiter then 1 else 0
  }

  /** The ids under which `waiter` is outstanding. */
  function Slots(m: map<nat, nat>, waiter: nat): set<nat> {
    set cid | cid in m && m[cid] == waiter
  }

  /** Each registration is spent at most once: fired callbacks and outstanding ones never exceed registrations. */
  lemma {:induction false} FiresAtMostOnce(log: seq<Event>, waiter: nat)
    requires Lawful(log)
    ensures Fires(log, waiter) + |Slots(Outstanding(log), waiter)| <= Adds(log, waiter)
    decreases |log|
  {
    if log != [] {
      var last, rest := log[|log| - 1], log[..|log| - 1];
      FiresAtMostOnce(rest, waiter);
      var m, m' := Outstanding(rest), Outstanding(log);
      var before, after := Slots(m, waiter), Slots(m', waiter);
      match last
      case Added(cid, w) =>
        if w == waiter {
          assert after == before + {cid};
        } else {
          assert after == before - {cid};
        }
      case Reported(cid, w) =>
        assert after == before - {cid};
    }
  }

  class StartupListenerImpl {
    var pending: map<nat, nat>
    ghost var log: seq<Event>

    ghost predicate Valid()
      reads this
    {
      Lawful(log) && pending == Outstanding(log)
    }

    constructor ()
      ensures Valid() && log == [] && pending == map[]
    {
      pending, log := map[], [];
    }

    /** `VmReady`: refuses a peer it cannot parse or does not know; otherwise fires and forgets the callback. */
    method VmReady(peer: Peer) returns (accepted: bool, fired: nat)
      requires Valid()
      modifies this
      ensures Valid() && accepted == (peer.Vsock? && peer.cid in old(pending))
      ensures accepted ==> fired == old(pending)[peer.cid]
      ensures accepted ==> pending == old(pending) - {peer.cid} && log == old(log) + [Reported(peer.cid, fired)]
      ensures !accepted ==> pending == old(pending) && log == old(log)
    {
      accepted, fired := false, 0;
      if peer.OtherAddress? || peer.cid !in pending {
        return;
      }
      accepted, fired := true, pending[peer.cid];
      pending := pending - {peer.cid};
      Append(log, Reported(peer.cid, fired));
      log := log + [Reported(peer.cid, fired)];
    }

    method AddPendingVM(cid: nat, waiter: nat)
      requires Valid()
      modifies this
      ensures Valid() && pending == old(pending)[cid := waiter] && log == old(log) + [Added(cid, waiter)]
    {
      pending := pending[cid := waiter];
      Append(log, Added(cid, waiter));
      log := log + [Added(cid, waiter)];
    }
  }
}
