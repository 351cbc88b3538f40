/** The control side of the daemon connection: which frames are heard when, how requests wait for
    the handshake, and what a drop settles. */
module RemoteProtocol {
  import opened Wrappers
  import opened RequestCorrelator
  import opened ConnectionLifecycle

  /** `parked` counts requests that await the handshake promise; `visited` observes the states. */
  datatype Control = Control(life: Lifecycle, corr: Correlator, parked: nat, visited: seq<ConnState>)

  const OPENED := Control(INITIAL, FRESH, 0, [Connecting])

  function Move(c: Control, life: Lifecycle): Control {
    c.(life := life, visited := if life.state == c.life.state then c.visited else c.visited + [life.state])
  }

  /** `handleDrop`: the bulk rejection happens only on the actual transition. */
  function HandleDrop(c: Control, err: Error): Control {
    if c.life.state == Dropped then c else Move(c, Drop(c.life, err)).(corr := RejectAll(c.corr, err))
  }

  /** Register, then hand to the wire; a failing write drops the connection under the new entry. */
  function SendRequest(c: Control, writeFails: bool): Control {
    var d := c.(corr := Register(c.corr));
    if c.life.state == Dropped || !writeFails then d else HandleDrop(d, ConnectionDropped)
  }

  datatype Event =
    | HelloAckFrame(valid: bool, connectionId: nat, generation: nat)
    | NackFrame(decodable: bool, requestId: nat, code: nat)
    | SessionListFrame
    | AckFrame(requestId: nat)
    | OtherFrame
    | Disconnected
    | RequestMade(writeFails: bool)
    | ParkedResumes(writeFails: bool)
    | ParkedFails
    | TimeoutFires(requestId: nat)

  function OnNack(c: Control, decodable: bool, requestId: nat, code: nat): Control {
    if !decodable then HandleDrop(c, ConnectionDropped)
    else if requestId != 0 then c.(corr := Nack(c.corr, requestId, NackCode(code)))
    else
      var d := if AwaitingHandshake(c.life) then c.(life := RejectHandshakeOnly(c.life, NackCode(code))) else c;
      HandleDrop(d, ConnectionDropped)
  }

  function Step(c: Control, e: Event): Control {
    match e
    case HelloAckFrame(valid, connectionId, generation) =>
      if c.life.state != Connecting then c
      else if !valid then Move(c, Drop(c.life, BadHello))
      else Move(c, ApplyHelloAck(c.life, connectionId, generation))
    case NackFrame(decodable, requestId, code) =>
      if c.life.state == Dropped then c else OnNack(c, decodable, requestId, code)
    case SessionListFrame =>
      if c.life.state == SnapshotPending then Move(c, MarkReady(c.life)) else c
    case AckFrame(requestId) =>
      if c.life.state == Ready then c.(corr := Ack(c.corr, requestId)) else c
    case OtherFrame => c
    case Disconnected => HandleDrop(c, ConnectionDropped)
    case RequestMade(writeFails) =>
      if c.life.state == Dropped then c
      else if AwaitingHandshake(c.life) then c.(parked := c.parked + 1)
      else SendRequest(c, writeFails)
    case ParkedResumes(writeFails) =>
      if c.parked == 0 || !c.life.handshake.Resolved? then c else SendRequest(c.(parked := c.parked - 1), writeFails)
    case ParkedFails =>
      if c.parked == 0 || !c.life.handshake.Failed? then c else c.(parked := c.parked - 1)
    case TimeoutFires(requestId) => c.(corr := TimerFires(c.corr, requestId))
  }

  function Run(c: Control, es: seq<Event>): Control
    decreases |es|
  {
    if es == [] then c else Run(Step(c, es[0]), es[1..])
  }

  // ---------------------------------------------------------------- invariants

  /** The states are visited in handshake order, and the promise is resolved exactly when the
      connection got ready. */
  predicate PathInv(c: Control) {
    match c.life.state
    case Connecting => c.visited == [Connecting] && c.life.handshake.Waiting?
    case SnapshotPending => c.visited == [Connecting, SnapshotPending] && c.life.handshake.Waiting?
    case Ready => c.visited == [Connecting, SnapshotPending, Ready] && c.life.handshake.Resolved?
    case Dropped =>
      || (c.visited == [Connecting, SnapshotPending, Ready, Dropped] && c.life.handshake.Resolved?)
      || ((c.visited == [Connecting, Dropped] || c.visited == [Connecting, SnapshotPending, Dropped]) &&
          c.life.handshake.Failed?)
  }

  ghost predicate ControlInv(c: Control) {
    && CorrelatorInv(c.corr)
    && PathInv(c)
    && (!c.life.handshake.Resolved? ==> c.corr.nextId == 1 && c.corr.pending == {})
  }

  lemma DropKeeps(c: Control, err: Error)
    requires ControlInv(c)
    ensures ControlInv(HandleDrop(c, err))
  {
    hide CorrelatorInv;
    RejectAllKeeps(c.corr, err);
  }

  lemma SendKeeps(c: Control, writeFails: bool)
    requires ControlInv(c) && c.life.handshake.Resolved?
    ensures ControlInv(SendRequest(c, writeFails))
  {
    hide CorrelatorInv, PathInv, HandleDrop;
    RegisterKeeps(c.corr);
    var d := c.(corr := Register(c.corr));
    assert PathInv(d) by { SamePath(c, d); }
    DropKeeps(d, ConnectionDropped);
  }

  lemma SamePath(c: Control, d: Control)
    requires PathInv(c) && d.life == c.life && d.visited == c.visited
    ensures PathInv(d)
  {
  }

  lemma NackKeeps(c: Control, decodable: bool, requestId: nat, code: nat)
    requires ControlInv(c) && c.life.state != Dropped
    ensures ControlInv(OnNack(c, decodable, requestId, code))
  {
    hide CorrelatorInv, Settle;
    DropKeeps(c, ConnectionDropped);
    SettleKeeps(c.corr, requestId, Rejected(NackCode(code)));
    if decodable && requestId != 0 {
      NothingPendingNothingSettled(c.corr, requestId, Rejected(NackCode(code)));
    } else if decodable && AwaitingHandshake(c.life) {
      RejectAllKeeps(c.corr, ConnectionDropped);
    }
  }

  lemma NothingPendingNothingSettled(c: Correlator, id: nat, o: Outcome)
    ensures c.pending == {} ==> Settle(c, id, o) == c
    ensures Settle(c, id, o).nextId == c.nextId
  {
  }

  lemma HandshakeKeeps(c: Control, e: Event)
    requires ControlInv(c) && (e.HelloAckFrame? || e.SessionListFrame?)
    ensures ControlInv(Step(c, e))
  {
    hide CorrelatorInv;
  }

  lemma RepliesKeep(c: Control, e: Event)
    requires ControlInv(c) && (e.AckFrame? || e.TimeoutFires?)
    ensures ControlInv(Step(c, e))
  {
    hide CorrelatorInv, Settle, TimerFires;
    SettleKeeps(c.corr, e.requestId, Acked);
    TimerKeeps(c.corr, e.requestId);
    NothingPendingNothingSettled(c.corr, e.requestId, Acked);
    NothingPendingNothingSettled(c.corr, e.requestId, Rejected(TimeoutError));
  }

  lemma RequestsKeep(c: Control, e: Event)
    requires ControlInv(c) && (e.RequestMade? || e.ParkedResumes? || e.ParkedFails?)
    ensures ControlInv(Step(c, e))
  {
    hide CorrelatorInv, SendRequest;
    if e.RequestMade? && c.life.state == Ready {
      SendKeeps(c, e.writeFails);
    } else if e.ParkedResumes? && c.parked > 0 && c.life.handshake.Resolved? {
      SendKeeps(c.(parked := c.parked - 1), e.writeFails);
    }
  }

  lemma StepKeepsInv(c: Control, e: Event)
    requires ControlInv(c)
    ensures ControlInv(Step(c, e))
  {
    if e.NackFrame? {
      if c.life.state != Dropped { NackKeeps(c, e.decodable, e.requestId, e.code); }
    } else if e.Disconnected? {
      DropKeeps(c, ConnectionDropped);
    } else if e.HelloAckFrame? || e.SessionListFrame? {
      HandshakeKeeps(c, e);
    } else if e.AckFrame? || e.TimeoutFires? {
      RepliesKeep(c, e);
    } else if !e.OtherFrame? {
      RequestsKeep(c, e);
    }
    hide ControlInv, HandleDrop, OnNack;
  }

  /** Main result: over every run each id handed out is pending under its own timer or was settled
      exactly once; nothing is pending, or was even numbered, before the handshake resolved; and the
      handshake promise is resolved exactly on runs through connecting, snapshot-pending, ready. */
  lemma {:induction false} RunKeepsInv(c: Control, es: seq<Event>)
    requires ControlInv(c)
    ensures ControlInv(Run(c, es))
    decreases |es|
  {
    hide ControlInv, Step;
    if es != [] {
      StepKeepsInv(c, es[0]);
      RunKeepsInv(Step(c, es[0]), es[1..]);
    }
  }

  lemma ProtocolHolds(es: seq<Event>)
    ensures var c := Run(OPENED, es);
            && (c.life.handshake.Resolved? <==> [Connecting, SnapshotPending, Ready] <= c.visited)
            && (forall id :: 1 <= id < c.corr.nextId <==> id in c.corr.pending || id in c.corr.outcomes)
            && c.corr.pending !! c.corr.outcomes.Keys && c.corr.settlements == |c.corr.outcomes.Keys|
            && c.corr.timers == c.corr.pending
            && (!c.life.handshake.Resolved? ==> c.corr.nextId == 1)
  {
    RunKeepsInv(OPENED, es);
    hide Run;
    var c := Run(OPENED, es);
    if !c.life.handshake.Resolved? {
      assert |c.visited| > 1 ==> c.visited[1] == Dropped || |c.visited| == 2 || c.visited[2] == Dropped;
    }
  }

  /** A dropped connection stays dropped, and its promise and its path stay as they are. */
  lemma {:induction false} DroppedIsAbsorbing(c: Control, es: seq<Event>)
    requires c.life.state == Dropped
    ensures Run(c, es).life == c.life && Run(c, es).visited == c.visited
    decreases |es|
  {
    if es != [] {
      DroppedStep(c, es[0]);
      hide Step;
      DroppedIsAbsorbing(Step(c, es[0]), es[1..]);
    }
  }

  lemma DroppedStep(c: Control, e: Event)
    requires c.life.state == Dropped
    ensures Step(c, e).life == c.life && Step(c, e).visited == c.visited
    ensures c.parked == 0 || !c.life.handshake.Resolved? ==>
              (Step(c, e).parked == 0 || !c.life.handshake.Resolved?) &&
              (c.corr.pending == {} ==> Step(c, e).corr.pending == {})
  {
  }

  lemma {:induction false} NothingPendsLater(c: Control, es: seq<Event>)
    requires c.life.state == Dropped && c.corr.pending == {} && (c.parked == 0 || !c.life.handshake.Resolved?)
    ensures Run(c, es).corr.pending == {}
    decreases |es|
  {
    if es != [] {
      DroppedStep(c, es[0]);
      hide Step;
      NothingPendsLater(Step(c, es[0]), es[1..]);
    }
  }

  /** After a drop, requests stay settled in every continuation exactly when no request was still
      parked on a handshake that had resolved: such a one registers after the bulk rejection and
      then waits for its own timer. */
  lemma NothingPendsAfterDropIff(c: Control)
    requires ControlInv(c) && c.life.state == Dropped && c.corr.pending == {}
    ensures (forall es :: Run(c, es).corr.pending == {}) <==> (c.parked == 0 || !c.life.handshake.Resolved?)
  {
    if c.parked == 0 || !c.life.handshake.Resolved? {
      forall es ensures Run(c, es).corr.pending == {} {
        NothingPendsLater(c, es);
      }
    } else {
      var es := [ParkedResumes(false)];
      assert es[1..] == [];
      assert Run(Step(c, es[0]), []) == Step(c, es[0]);
      assert Run(c, es) == Step(c, es[0]);
      assert c.corr.nextId in Step(c, es[0]).corr.pending;
    }
  }

  /** That case is reachable. */
  lemma ParkedRequestCanOutliveTheDrop()
    ensures exists es :: var c := Run(OPENED, es);
              c.life.state == Dropped && c.corr.pending == {} && c.parked > 0 && c.life.handshake.Resolved?
  {
    var es := [HelloAckFrame(true, 1, 1), RequestMade(false), SessionListFrame, Disconnected];
    var c1 := Step(OPENED, es[0]);
    var c2 := Step(c1, es[1]);
    var c3 := Step(c2, es[2]);
    var c4 := Step(c3, es[3]);
    assert es[1..] == [es[1], es[2], es[3]] && [es[1], es[2], es[3]][1..] == [es[2], es[3]];
    assert [es[2], es[3]][1..] == [es[3]] && [es[3]][1..] == [];
    assert Run(c4, []) == c4;
    assert Run(c3, [es[3]]) == c4;
    assert Run(c2, [es[2], es[3]]) == c4;
    assert Run(c1, [es[1], es[2], es[3]]) == c4;
    assert Run(OPENED, es) == c4;
  }

  /** Whatever is pending is settled at the latest by its own timer, whatever else happens. */
  lemma OwnTimerSettles(c: Control, id: nat)
    requires ControlInv(c) && id in c.corr.pending
    ensures var d := Step(c, TimeoutFires(id));
            id !in d.corr.pending && id in d.corr.outcomes && d.corr.outcomes[id] == Rejected(TimeoutError)
  {
  }

  lemma StepKeepsOutcome(c: Control, e: Event, id: nat)
    requires CorrelatorInv(c.corr) && id in c.corr.outcomes
    ensures id in Step(c, e).corr.outcomes && Step(c, e).corr.outcomes[id] == c.corr.outcomes[id]
  {
  }

  /** A settled request keeps its outcome through every later reply, timeout and drop. */
  lemma {:induction false} OutcomesAreFinal(c: Control, es: seq<Event>, id: nat)
    requires ControlInv(c) && id in c.corr.outcomes
    ensures id in Run(c, es).corr.outcomes && Run(c, es).corr.outcomes[id] == c.corr.outcomes[id]
    decreases |es|
  {
    hide Step;
    if es != [] {
      StepKeepsOutcome(c, es[0], id);
      StepKeepsInv(c, es[0]);
      OutcomesAreFinal(Step(c, es[0]), es[1..], id);
    }
  }

  // ---------------------------------------------------------------- what settles a request, and how

  /** The write of this request fails, and with it the connection. */
  predicate WriteFails(c: Control, e: Event) {
    || (e.RequestMade? && e.writeFails && c.life.state == Ready)
    || (e.ParkedResumes? && e.writeFails && c.parked > 0 && c.life.handshake == Resolved && c.life.state != Dropped)
  }

  /** The connection ends here: the peer is gone, a write fails, or the peer refuses the connection as a
      whole, legibly or not. */
  predicate Ends(c: Control, e: Event) {
    && c.life.state != Dropped
    && (e.Disconnected? || WriteFails(c, e) || (e.NackFrame? && (!e.decodable || e.requestId == 0)))
  }

  /** How event `e` settles the pending request `id`, if it does. */
  function SettledBy(c: Control, e: Event, id: nat): Option<Outcome> {
    if e == AckFrame(id) && c.life.state == Ready then Some(Acked)
    else if e.NackFrame? && e.decodable && e.requestId == id != 0 && c.life.state != Dropped then
      Some(Rejected(NackCode(e.code)))
    else if e == TimeoutFires(id) then Some(Rejected(TimeoutError))
    else if Ends(c, e) then Some(Rejected(ConnectionDropped))
    else None
  }

  /** The request is settled with `o`, or if there is none still pending. */
  predicate SettledOrPending(d: Correlator, id: nat, o: Option<Outcome>) {
    && (o.Some? ==> id !in d.pending && id in d.outcomes && d.outcomes[id] == o.value)
    && (o.None? ==> id in d.pending && id !in d.outcomes)
  }

  /** One step: a pending request is settled as the event says, and stays pending otherwise. */
  lemma StepSettles(c: Control, e: Event, id: nat)
    requires ControlInv(c) && id in c.corr.pending
    ensures SettledOrPending(Step(c, e).corr, id, SettledBy(c, e, id))
  {
    if e.RequestMade? || e.ParkedResumes? {
      SendSettles(c, e, id);
    } else if e.NackFrame? {
      NackSettles(c, e, id);
    } else if !e.Disconnected? {
      ReplySettles(c, e, id);
    } else {
      DropSettles(c, ConnectionDropped, id);
    }
    if e.Disconnected? {
      hide HandleDrop, ControlInv, OnNack, SendRequest;
    } else {
      hide Step, ControlInv, SettledBy, SettledOrPending;
    }
  }

  lemma DropSettles(c: Control, err: Error, id: nat)
    requires id in c.corr.pending && id !in c.corr.outcomes
    ensures SettledOrPending(HandleDrop(c, err).corr, id, if c.life.state == Dropped then None else Some(Rejected(err)))
  {
  }

  lemma SendSettles(c: Control, e: Event, id: nat)
    requires ControlInv(c) && id in c.corr.pending && (e.RequestMade? || e.ParkedResumes?)
    ensures SettledOrPending(Step(c, e).corr, id, SettledBy(c, e, id))
  {
    var sent := (if e.ParkedResumes? && c.parked > 0 then c.(parked := c.parked - 1) else c).(corr := Register(c.corr));
    DropSettles(sent, ConnectionDropped, id);
    hide HandleDrop, SettledOrPending, PathInv;
    StillPending(c.corr, id);
    StillPending(Register(c.corr), id);
  }

  lemma StillPending(c: Correlator, id: nat)
    requires id in c.pending && id !in c.outcomes
    ensures SettledOrPending(c, id, None)
  {
  }

  lemma NackSettles(c: Control, e: Event, id: nat)
    requires ControlInv(c) && id in c.corr.pending && e.NackFrame?
    ensures SettledOrPending(Step(c, e).corr, id, SettledBy(c, e, id))
  {
    assert !AwaitingHandshake(c.life);
    DropSettles(c, ConnectionDropped, id);
    hide HandleDrop, PathInv;
  }

  lemma ReplySettles(c: Control, e: Event, id: nat)
    requires ControlInv(c) && id in c.corr.pending
    requires !e.RequestMade? && !e.ParkedResumes? && !e.NackFrame? && !e.Disconnected?
    ensures SettledOrPending(Step(c, e).corr, id, SettledBy(c, e, id))
  {
    hide PathInv, HandleDrop, OnNack, SendRequest;
  }

  /** The number of the request that this event sends, if it sends one. */
  predicate Sends(c: Control, e: Event) {
    || (e.RequestMade? && c.life.state == Ready)
    || (e.ParkedResumes? && c.parked > 0 && c.life.handshake == Resolved)
  }

  /** A request goes out exactly on a ready connection, or when the handshake it waited for has
      resolved; it gets the next number and is pending, unless its own write fails. */
  lemma StepSends(c: Control, e: Event)
    requires ControlInv(c)
    ensures var d := Step(c, e).corr;
            && d.nextId == (if Sends(c, e) then c.corr.nextId + 1 else c.corr.nextId)
            && (Sends(c, e) && !WriteFails(c, e) ==> c.corr.nextId in d.pending)
            && (Sends(c, e) && WriteFails(c, e) ==>
                  c.corr.nextId in d.outcomes && d.outcomes[c.corr.nextId] == Rejected(ConnectionDropped))
            && forall id :: id in d.outcomes ==>
                 id in c.corr.outcomes || id in c.corr.pending || (id == c.corr.nextId && Sends(c, e) && WriteFails(c, e))
  {
    if e.RequestMade? || e.ParkedResumes? {
      var sent := (if e.ParkedResumes? && c.parked > 0 then c.(parked := c.parked - 1) else c).(corr := Register(c.corr));
      DropsOnlyPending(sent, ConnectionDropped);
      hide HandleDrop, PathInv;
    } else {
      NothingSent(c, e);
      hide Step;
    }
  }

  lemma DropsOnlyPending(c: Control, err: Error)
    ensures var d := HandleDrop(c, err).corr;
            && d.nextId == c.corr.nextId
            && (c.life.state != Dropped ==>
                  forall id :: id in c.corr.pending ==> id in d.outcomes && d.outcomes[id] == Rejected(err))
            && forall id :: id in d.outcomes ==> id in c.corr.outcomes || id in c.corr.pending
  {
  }

  lemma NothingSent(c: Control, e: Event)
    requires !e.RequestMade? && !e.ParkedResumes?
    ensures var d := Step(c, e).corr;
            d.nextId == c.corr.nextId && forall id :: id in d.outcomes ==> id in c.corr.outcomes || id in c.corr.pending
  {
    DropsOnlyPending(c, ConnectionDropped);
    if e.NackFrame? && AwaitingHandshake(c.life) {
      DropsOnlyPending(c.(life := RejectHandshakeOnly(c.life, NackCode(e.code))), ConnectionDropped);
    }
    hide HandleDrop, SendRequest;
  }

  lemma {:induction false} RunPrefix(c: Control, es: seq<Event>, i: nat)
    requires i < |es|
    ensures Run(c, es[..i + 1]) == Step(Run(c, es[..i]), es[i])
    decreases |es|
  {
    hide Step;
    if i == 0 {
      assert es[..1][1..] == [] && es[..0] == [];
      assert Run(c, es[..1]) == Run(Step(c, es[0]), []);
    } else {
      RunPrefix(Step(c, es[0]), es[1..], i - 1);
      assert es[..i + 1][1..] == es[1..][..i] && es[..i][1..] == es[1..][..i - 1];
    }
  }

  /** The acknowledgement of `id` arrives on the ready connection while `id` is pending. */
  predicate AckedAt(es: seq<Event>, i: nat, id: nat)
    requires i < |es|
  {
    var c := Run(OPENED, es[..i]);
    es[i] == AckFrame(id) && c.life.state == Ready && id in c.corr.pending
  }

  /** Event `i` settles `id` with `o`, or fails to send it. */
  predicate SettlesAt(es: seq<Event>, i: nat, id: nat, o: Outcome)
    requires i < |es|
  {
    var c := Run(OPENED, es[..i]);
    || (id in c.corr.pending && SettledBy(c, es[i], id) == Some(o))
    || (id == c.corr.nextId && Sends(c, es[i]) && WriteFails(c, es[i]) && o == Rejected(ConnectionDropped))
  }

  predicate SettledAfter(c: Control, e: Event, id: nat, o: Outcome) {
    || (id in c.corr.outcomes && c.corr.outcomes[id] == o)
    || (id in c.corr.pending && SettledBy(c, e, id) == Some(o))
    || (id == c.corr.nextId && Sends(c, e) && WriteFails(c, e) && o == Rejected(ConnectionDropped))
  }

  lemma StepOutcome(c: Control, e: Event, id: nat, o: Outcome)
    requires ControlInv(c)
    ensures (id in Step(c, e).corr.outcomes && Step(c, e).corr.outcomes[id] == o) <==> SettledAfter(c, e, id, o)
  {
    assert id in c.corr.pending ==> id !in c.corr.outcomes && id != c.corr.nextId;
    assert c.corr.nextId !in c.corr.outcomes;
    StepSends(c, e);
    if id in c.corr.outcomes {
      StepKeepsOutcome(c, e, id);
    } else if id in c.corr.pending {
      StepSettles(c, e, id);
    }
    hide Step, ControlInv, SettledBy, Sends, WriteFails;
  }

  /** Main result: every outcome has its cause. Over every run, a request is settled with `o` exactly if
      some event of the run settled it so: an acknowledgement on the ready connection, a legible
      refusal of this request, its own timeout, or the end of the connection, each while it was
      pending. */
  lemma {:induction false} OutcomesHaveCauses(es: seq<Event>, id: nat, o: Outcome)
    ensures var d := Run(OPENED, es).corr;
            id in d.outcomes && d.outcomes[id] == o <==> exists i: nat :: i < |es| && SettlesAt(es, i, id, o)
    decreases |es|
  {
    if es != [] {
      var n := |es| - 1;
      var before, c := es[..n], Run(OPENED, es[..n]);
      OutcomesHaveCauses(before, id, o);
      RunKeepsInv(OPENED, before);
      RunPrefix(OPENED, es, n);
      assert es[..n + 1] == es;
      StepOutcome(c, es[n], id, o);
      assert SettlesAt(es, n, id, o) || (id in c.corr.outcomes && c.corr.outcomes[id] == o) <==> SettledAfter(c, es[n], id, o);
      forall i: nat | i < n ensures SettlesAt(before, i, id, o) <==> SettlesAt(es, i, id, o) {
        assert before[..i] == es[..i] && before[i] == es[i];
      }
      hide Run, Step, SettlesAt, SettledAfter, ControlInv;
    }
  }

  /** In particular a request is acknowledged exactly if its acknowledgement came in while it was pending
      on the ready connection. */
  lemma AckedIff(es: seq<Event>, id: nat)
    ensures var d := Run(OPENED, es).corr;
            id in d.outcomes && d.outcomes[id] == Acked <==> exists i: nat :: i < |es| && AckedAt(es, i, id)
  {
    OutcomesHaveCauses(es, id, Acked);
    forall i: nat | i < |es| ensures AckedAt(es, i, id) <==> SettlesAt(es, i, id, Acked) {
    }
    hide Run, AckedAt, SettlesAt;
  }

  /** The end of the connection rejects all that is pending, and the handshake if it still waits. */
  lemma EndRejectsEverything(c: Control, e: Event)
    requires ControlInv(c) && Ends(c, e)
    ensures var d := Step(c, e);
            && d.life.state == Dropped && d.corr.pending == {} && d.corr.timers == {}
            && (forall id :: id in c.corr.pending ==>
                  id in d.corr.outcomes && d.corr.outcomes[id] == Rejected(ConnectionDropped))
            && d.life.handshake == (if c.life.handshake != Waiting then c.life.handshake
                                    else if e.NackFrame? && e.decodable then Failed(NackCode(e.code))
                                    else Failed(ConnectionDropped))
  {
    if e.NackFrame? {
      if e.decodable && AwaitingHandshake(c.life) {
        DropRejects(c.(life := RejectHandshakeOnly(c.life, NackCode(e.code))), ConnectionDropped);
      } else {
        DropRejects(c, ConnectionDropped);
      }
    } else if e.Disconnected? {
      DropRejects(c, ConnectionDropped);
    } else {
      var sent := (if e.ParkedResumes? then c.(parked := c.parked - 1) else c).(corr := Register(c.corr));
      DropRejects(sent, ConnectionDropped);
    }
    hide HandleDrop;
  }

  lemma DropRejects(c: Control, err: Error)
    requires c.corr.timers == c.corr.pending && c.life.state != Dropped
    ensures var d := HandleDrop(c, err);
            && d.life.state == Dropped && d.corr.pending == {} && d.corr.timers == {}
            && (forall id :: id in c.corr.pending ==> id in d.corr.outcomes && d.corr.outcomes[id] == Rejected(err))
            && d.life.handshake == (if AwaitingHandshake(c.life) && c.life.handshake == Waiting then Failed(err)
                                    else c.life.handshake)
  {
  }

  /** The handshake, step by step: the hello is answered, the first list makes the connection ready and
      resolves the promise; a malformed answer drops the connection and fails it. */
  lemma HandshakeSteps(c: Control, connectionId: nat, generation: nat)
    requires ControlInv(c)
    ensures c.life.state == Connecting ==>
              Step(c, HelloAckFrame(true, connectionId, generation)).life ==
                Lifecycle(SnapshotPending, connectionId, generation, Waiting)
    ensures c.life.state == Connecting ==>
              Step(c, HelloAckFrame(false, connectionId, generation)).life ==
                Lifecycle(Dropped, c.life.connectionId, c.life.generation, Failed(BadHello))
    ensures c.life.state == SnapshotPending ==>
              Step(c, SessionListFrame).life == Lifecycle(Ready, c.life.connectionId, c.life.generation, Resolved)
    ensures c.life.state != Connecting ==>
              Step(c, HelloAckFrame(true, connectionId, generation)) == c &&
              Step(c, HelloAckFrame(false, connectionId, generation)) == c
    ensures c.life.state != SnapshotPending ==> Step(c, SessionListFrame) == c
    ensures c.life.state == Connecting || c.life.state == SnapshotPending ==>
              forall writeFails :: Step(c, RequestMade(writeFails)) == c.(parked := c.parked + 1)
  {
  }

  /** Requests wait while the handshake does; each goes on once, when the promise is settled. */
  lemma ParkedCount(c: Control, e: Event)
    requires ControlInv(c)
    ensures Step(c, e).parked ==
              if e.RequestMade? && (c.life.state == Connecting || c.life.state == SnapshotPending) then c.parked + 1
              else if e.ParkedResumes? && c.parked > 0 && c.life.handshake == Resolved then c.parked - 1
              else if e.ParkedFails? && c.parked > 0 && c.life.handshake.Failed? then c.parked - 1
              else c.parked
    ensures e.RequestMade? && c.life.state == Dropped ==> Step(c, e) == c
  {
    hide RejectAll, Settle, Register;
  }
}
