/** The handshake of the daemon connection and its settle-once promise. */
module ConnectionLifecycle {
  import opened RequestCorrelator

  datatype ConnState = Connecting | SnapshotPending | Ready | Dropped

  datatype Promise = Waiting | Resolved | Failed(err: Error)

  datatype Lifecycle = Lifecycle(state: ConnState, connectionId: nat, generation: nat, handshake: Promise)

  const INITIAL := Lifecycle(Connecting, 0, 0, Waiting)

  /** Only the first settlement of a promise counts. */
  function SettleOnce(p: Promise, q: Promise): Promise {
    if p.Waiting? then q else p
  }

  predicate AwaitingHandshake(l: Lifecycle) {
    l.state == Connecting || l.state == SnapshotPending
  }

  function ApplyHelloAck(l: Lifecycle, connectionId: nat, generation: nat): Lifecycle {
    if l.state != Connecting then l else Lifecycle(SnapshotPending, connectionId, generation, l.handshake)
  }

  function MarkReady(l: Lifecycle): Lifecycle {
    if l.state != SnapshotPending then l else l.(state := Ready, handshake := SettleOnce(l.handshake, Resolved))
  }

  function RejectHandshakeOnly(l: Lifecycle, err: Error): Lifecycle {
    l.(handshake := SettleOnce(l.handshake, Failed(err)))
  }

  function Drop(l: Lifecycle, err: Error): Lifecycle {
    if l.state == Dropped then l
    else l.(state := Dropped, handshake := if AwaitingHandshake(l) then SettleOnce(l.handshake, Failed(err)) else l.handshake)
  }

  class ConnectionLifecycle {
    var state: ConnState
    var connectionId: nat
    var generation: nat
    var handshake: Promise

    function State(): Lifecycle
      reads this
    {
      Lifecycle(state, connectionId, generation, handshake)
    }

    constructor ()
      ensures State() == INITIAL
    {
      state, connectionId, generation, handshake := Connecting, 0, 0, Waiting;
    }

    method OnHelloAck(newConnectionId: nat, newGeneration: nat) returns (applied: bool)
      modifies this
      ensures State() == ApplyHelloAck(old(State()), newConnectionId, newGeneration) && applied == (old(state) == Connecting)
    {
      if state != Connecting {
        return false;
      }
      connectionId, generation := newConnectionId, newGeneration;
      state := SnapshotPending;
      return true;
    }

    method OnFirstList() returns (applied: bool)
      modifies this
      ensures State() == MarkReady(old(State())) && applied == (old(state) == SnapshotPending)
    {
      if state != SnapshotPending {
        return false;
      }
      state := Ready;
      if handshake == Waiting {
        handshake := Resolved;
      }
      return true;
    }

    method RejectHandshake(err: Error)
      modifies this`handshake
      ensures State() == RejectHandshakeOnly(old(State()), err)
    {
      if handshake == Waiting {
        handshake := Failed(err);
      }
    }

    method DropConnection(err: Error) returns (dropped: bool)
      modifies this
      ensures State() == Drop(old(State()), err) && dropped == (old(state) != Dropped)
    {
      if state == Dropped {
        return false;
      }
      var wasAwaiting := state == Connecting || state == SnapshotPending;
      state := Dropped;
      if wasAwaiting {
        RejectHandshake(err);
      }
      return true;
    }
  }
}
