/** Matching replies to requests: identifiers, pending entries, one timer each. */
module RequestCorrelator {
  datatype Error = NackCode(code: nat) | TimeoutError | ConnectionDropped | BadHello

  datatype Outcome = Acked | Rejected(err: Error)

  /** `timers` are the armed timeouts. `outcomes` and `settlements` observe the promises: what each
      id was settled with, and how many times any promise was settled. */
  datatype Correlator = Correlator(nextId: nat, pending: set<nat>, timers: set<nat>, outcomes: map<nat, Outcome>,
                                   settlements: nat)

  const FRESH := Correlator(1, {}, {}, map[], 0)

  function Settle(c: Correlator, id: nat, o: Outcome): Correlator {
    if id !in c.pending then c
    else c.(pending := c.pending - {id}, timers := c.timers - {id}, outcomes := c.outcomes[id := o],
            settlements := c.settlements + 1)
  }

  function Register(c: Correlator): Correlator {
    c.(nextId := c.nextId + 1, pending := c.pending + {c.nextId}, timers := c.timers + {c.nextId})
  }

  function Ack(c: Correlator, id: nat): Correlator {
    Settle(c, id, Acked)
  }

  function Nack(c: Correlator, id: nat, err: Error): Correlator {
    if id == 0 then c else Settle(c, id, Rejected(err))
  }

  /** An armed timeout fires; a cleared one cannot. */
  function TimerFires(c: Correlator, id: nat): Correlator {
    if id !in c.timers then c else Settle(c.(timers := c.timers - {id}), id, Rejected(TimeoutError))
  }

  /** The entries in `some` are rejected, the others are as they were. */
  function RejectSome(c: Correlator, some: set<nat>, err: Error): Correlator {
    Correlator(c.nextId, c.pending - some, c.timers - some, WithRejected(c.outcomes, some, err), c.settlements + |some|)
  }

  function WithRejected(outcomes: map<nat, Outcome>, some: set<nat>, err: Error): map<nat, Outcome> {
    map id | id in outcomes.Keys + some :: if id in some then Rejected(err) else outcomes[id]
  }

  function RejectAll(c: Correlator, err: Error): Correlator {
    RejectSome(c, c.pending, err)
  }

  /** Every id handed out is pending, with its own armed timer, or was settled, exactly once. */
  ghost predicate CorrelatorInv(c: Correlator) {
    && c.nextId >= 1
    && c.timers == c.pending
    && c.pending !! c.outcomes.Keys
    && (forall id :: 1 <= id < c.nextId <==> id in c.pending || id in c.outcomes)
    && c.settlements == |c.outcomes.Keys|
  }

  lemma SettleKeeps(c: Correlator, id: nat, o: Outcome)
    requires CorrelatorInv(c)
    ensures CorrelatorInv(Settle(c, id, o))
  {
    if id in c.pending {
      SettledKeys(c.outcomes, id, o);
    }
  }

  lemma SettledKeys(outcomes: map<nat, Outcome>, id: nat, o: Outcome)
    requires id !in outcomes
    ensures outcomes[id := o].Keys == outcomes.Keys + {id}
    ensures |outcomes[id := o].Keys| == |outcomes.Keys| + 1
  {
  }

  lemma RegisterKeeps(c: Correlator)
    requires CorrelatorInv(c)
    ensures CorrelatorInv(Register(c)) && c.nextId in Register(c).pending
    ensures c.nextId !in c.pending && c.nextId !in c.outcomes
  {
  }

  lemma TimerKeeps(c: Correlator, id: nat)
    requires CorrelatorInv(c)
    ensures CorrelatorInv(TimerFires(c, id)) && TimerFires(c, id) == Settle(c, id, Rejected(TimeoutError))
  {
    SettleKeeps(c, id, Rejected(TimeoutError));
  }

  lemma RejectAllKeeps(c: Correlator, err: Error)
    requires CorrelatorInv(c)
    ensures CorrelatorInv(RejectAll(c, err)) && RejectAll(c, err).pending == {}
  {
    var d := RejectAll(c, err);
    assert d.outcomes.Keys == c.outcomes.Keys + c.pending;
    assert |c.outcomes.Keys + c.pending| == |c.outcomes.Keys| + |c.pending|;
  }

  lemma RejectNone(c: Correlator, err: Error)
    ensures RejectSome(c, {}, err) == c
  {
    assert RejectSome(c, {}, err).outcomes == c.outcomes;
  }

  lemma RejectOneMore(c: Correlator, some: set<nat>, id: nat, err: Error)
    requires id in c.pending && id !in some
    ensures RejectSome(c, some + {id}, err) == Settle(RejectSome(c, some, err), id, Rejected(err))
  {
    hide WithRejected;
    RejectedOutcomes(c.outcomes, some, id, err);
    MinusOneMore(c.pending, some, id);
    MinusOneMore(c.timers, some, id);
    assert |some + {id}| == |some| + 1;
  }

  lemma MinusOneMore(all: set<nat>, some: set<nat>, id: nat)
    ensures all - (some + {id}) == all - some - {id}
  {
  }

  lemma RejectedOutcomes(outcomes: map<nat, Outcome>, some: set<nat>, id: nat, err: Error)
    ensures WithRejected(outcomes, some + {id}, err) == WithRejected(outcomes, some, err)[id := Rejected(err)]
  {
  }

  /** A reply or a timeout for an id that is not pending changes nothing at all. */
  lemma LateRepliesChangeNothing(c: Correlator, id: nat, err: Error)
    requires CorrelatorInv(c) && id !in c.pending
    ensures Ack(c, id) == c && Nack(c, id, err) == c && TimerFires(c, id) == c
  {
  }

  class RequestCorrelator {
    var nextId: nat
    var pending: set<nat>
    var timers: set<nat>
    ghost var outcomes: map<nat, Outcome>
    ghost var settlements: nat

    ghost function State(): Correlator
      reads this
    {
      Correlator(nextId, pending, timers, outcomes, settlements)
    }

    constructor ()
      ensures State() == FRESH
    {
      nextId, pending, timers := 1, {}, {};
      outcomes, settlements := map[], 0;
    }

    /** `request` up to the call of `send`: the entry is registered first. */
    method RegisterRequest() returns (requestId: nat)
      modifies this
      ensures State() == Register(old(State())) && requestId == old(nextId)
    {
      requestId := nextId;
      nextId := nextId + 1;
      timers := timers + {requestId};
      pending := pending + {requestId};
    }

    method SettleEntry(id: nat, o: Outcome) returns (matched: bool)
      modifies this
      ensures State() == Settle(old(State()), id, o) && matched == (id in old(pending))
    {
      if id !in pending {
        return false;
      }
      pending := pending - {id};
      timers := timers - {id};
      outcomes, settlements := outcomes[id := o], settlements + 1;
      return true;
    }

    method OnAck(id: nat) returns (matched: bool)
      modifies this
      ensures State() == Ack(old(State()), id) && matched == (id in old(pending))
    {
      matched := SettleEntry(id, Acked);
    }

    method OnNack(id: nat, err: Error) returns (matched: bool)
      modifies this
      ensures State() == Nack(old(State()), id, err) && matched == (id != 0 && id in old(pending))
    {
      if id == 0 {
        return false;
      }
      matched := SettleEntry(id, Rejected(err));
    }

    method OnTimer(id: nat)
      requires id in timers
      modifies this
      ensures State() == TimerFires(old(State()), id)
    {
      timers := timers - {id};
      if id in pending {
        pending := pending - {id};
        outcomes, settlements := outcomes[id := Rejected(TimeoutError)], settlements + 1;
        assert timers - {id} == timers;
      }
    }

    method RejectPending(err: Error)
      modifies this
      ensures State() == RejectAll(old(State()), err)
    {
      ghost var was := State();
      ghost var done: set<nat> := {};
      RejectNone(was, err);
      hide RejectSome;
      while pending != {}
        invariant State() == RejectSome(was, done, err) && pending == was.pending - done && done <= was.pending
        decreases |pending|
      {
        var id :| id in pending;
        RejectOneMore(was, done, id, err);
        timers := timers - {id};
        outcomes, settlements := outcomes[id := Rejected(err)], settlements + 1;
        pending := pending - {id};
        done := done + {id};
      }
      assert done == was.pending;
    }
  }
}
