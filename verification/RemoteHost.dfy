/** The server side of the daemon connection: DATA frames are fanned out to attached clients, each
    through a wrapper that tags them with the latch, and appended to the server's own log. */
module RemoteHost {
  import opened Wrappers
  import opened SM = SessionMirror
  import RequestCorrelator
  import ConnectionLifecycle
  import RemoteProtocol

  type ClientId = nat

  /** What the attach wrapper hands to the client's sink. */
  datatype Chunk = Chunk(generation: nat, seqNo: nat, data: string)

  /** The attach wrapper owns the counter; `received` is the sink's view. */
  datatype Attached = Attached(token: nat, syntheticSeq: nat, received: seq<Chunk>)

  /** One append to the server-side log, with the generation of the frame it came from. */
  datatype Append = Append(generation: nat, data: string)

  datatype Plane = Plane(mirror: Mirror, attached: map<Id, map<ClientId, Attached>>, log: map<Id, seq<Append>>)

  function ClientsOf(p: Plane, id: Id): map<ClientId, Attached> {
    if id in p.attached then p.attached[id] else map[]
  }

  function LogOf(p: Plane, id: Id): seq<Append> {
    if id in p.log then p.log[id] else []
  }

  /** The wrapper reads the latch when it is called. */
  function Tagged(a: Attached, generation: nat, data: string): Attached {
    Attached(a.token, a.syntheticSeq + 1, a.received + [Chunk(generation, a.syntheticSeq, data)])
  }

  /** `applyData`: a chunk older than the latch goes to no client and not to the log. */
  function ApplyData(p: Plane, id: Id, generation: nat, data: string): Plane {
    var stale := generation < GenerationOf(p.mirror, id);
    var m := Observe(p.mirror, id, generation);
    if stale then p.(mirror := m)
    else
      var tag := GenerationOf(m, id);
      Plane(m,
            if id in p.attached then
              p.attached[id := map c | c in p.attached[id] :: Tagged(p.attached[id][c], tag, data)]
            else p.attached,
            p.log[id := LogOf(p, id) + [Append(generation, data)]])
  }

  datatype Event =
    | MirrorEvent(e: SM.Event)
    | DataFrame(id: Id, generation: nat, data: string)
    | AttachAccepted(id: Id, c: ClientId, token: nat)
    | Detached(id: Id, c: ClientId, expectedToken: Option<nat>)
    | Disposed(id: Id)
    | AllDisposed

  function Attach(p: Plane, id: Id, c: ClientId, token: nat): Plane {
    p.(attached := p.attached[id := ClientsOf(p, id)[c := Attached(token, 0, [])]])
  }

  function Detach(p: Plane, id: Id, c: ClientId, expectedToken: Option<nat>): Plane {
    var clients := ClientsOf(p, id);
    if expectedToken.Some? && (c !in clients || clients[c].token != expectedToken.value) then p
    else if id !in p.attached then p
    else if clients - {c} == map[] then p.(attached := p.attached - {id})
    else p.(attached := p.attached[id := clients - {c}])
  }

  /** Removal from the mirror always comes with the clients and the log of the session. */
  function PlaneStep(p: Plane, e: Event): Plane {
    match e
    case MirrorEvent(m) =>
      if m.Removed? || m.AllRemoved? || m.DataFrom? then p else p.(mirror := SM.Step(p.mirror, m))
    case DataFrame(id, generation, data) => ApplyData(p, id, generation, data)
    case AttachAccepted(id, c, token) => Attach(p, id, c, token)
    case Detached(id, c, expectedToken) => Detach(p, id, c, expectedToken)
    case Disposed(id) => Plane(Remove(p.mirror, id), p.attached - {id}, p.log - {id})
    case AllDisposed => Plane(EMPTY, map[], map[])
  }

  const CONNECTED := Plane(EMPTY, map[], map[])

  function Run(es: seq<Event>): Plane {
    if es == [] then CONNECTED else PlaneStep(Run(es[..|es| - 1]), es[|es| - 1])
  }

  // ---------------------------------------------------------------- the fence

  /** A client holds exactly the last entries of the log, in order, numbered 0, 1, 2, … */
  predicate StreamOk(a: Attached, log: seq<Append>) {
    && a.syntheticSeq == |a.received| <= |log|
    && (forall i :: 0 <= i < |a.received| ==>
          var entry := log[|log| - |a.received| + i];
          a.received[i] == Chunk(entry.generation, i, entry.data))
  }

  /** Generations never go back and never pass the latch. */
  predicate LogOk(log: seq<Append>, latch: nat) {
    && (forall i :: 0 <= i < |log| ==> log[i].generation <= latch)
    && (forall i, j :: 0 <= i < j < |log| ==> log[i].generation <= log[j].generation)
  }

  ghost predicate PlaneInv(p: Plane) {
    && (forall id, c :: id in p.attached && c in p.attached[id] ==> StreamOk(p.attached[id][c], LogOf(p, id)))
    && (forall id :: LogOk(LogOf(p, id), GenerationOf(p.mirror, id)))
  }

  /** Every chunk fanned out carries exactly the generation of its own frame, although the wrapper
      took it from the latch; a stale chunk reaches nobody. */
  lemma RetaggingIsExact(p: Plane, id: Id, generation: nat, data: string, c: ClientId)
    requires c in ClientsOf(p, id)
    ensures var a, b := ClientsOf(p, id)[c], ClientsOf(ApplyData(p, id, generation, data), id);
            c in b && b[c].received ==
              if generation < GenerationOf(p.mirror, id) then a.received
              else a.received + [Chunk(generation, a.syntheticSeq, data)]
    ensures LogOf(ApplyData(p, id, generation, data), id) ==
              if generation < GenerationOf(p.mirror, id) then LogOf(p, id) else LogOf(p, id) + [Append(generation, data)]
  {
  }

  lemma LatchGrows(m: Mirror, id: Id, generation: nat, other: Id)
    ensures GenerationOf(Observe(m, id, generation), other) >= GenerationOf(m, other)
    ensures generation >= GenerationOf(m, id) ==> GenerationOf(Observe(m, id, generation), id) == generation
  {
  }

  lemma {:induction false} UpsertAllGrows(m: Mirror, list: seq<SessionInfo>, id: Id)
    ensures GenerationOf(UpsertAll(m, list), id) >= GenerationOf(m, id)
  {
    if list != [] {
      UpsertAllGrows(m, list[..|list| - 1], id);
    }
  }

  lemma StreamGrows(a: Attached, log: seq<Append>, generation: nat, data: string)
    requires StreamOk(a, log)
    ensures StreamOk(Tagged(a, generation, data), log + [Append(generation, data)])
  {
    var longer := log + [Append(generation, data)];
    var b := Tagged(a, generation, data);
    forall i | 0 <= i < |b.received|
      ensures var entry := longer[|longer| - |b.received| + i]; b.received[i] == Chunk(entry.generation, i, entry.data)
    {
      if i < |a.received| {
        assert longer[|longer| - |b.received| + i] == log[|log| - |a.received| + i];
      }
    }
  }

  lemma LogGrows(log: seq<Append>, latch: nat, later: nat, data: string)
    requires LogOk(log, latch) && latch <= later
    ensures LogOk(log, later) && LogOk(log + [Append(later, data)], later)
  {
  }

  lemma EmptyLogOk(latch: nat)
    ensures LogOk([], latch)
  {
  }

  lemma JustAttachedOk(token: nat, log: seq<Append>)
    ensures StreamOk(Attached(token, 0, []), log)
  {
  }

  lemma DataKeeps(p: Plane, id: Id, generation: nat, data: string)
    requires PlaneInv(p)
    ensures PlaneInv(ApplyData(p, id, generation, data))
  {
    hide StreamOk, LogOk, Tagged, Observe, GenerationOf;
    var q := ApplyData(p, id, generation, data);
    forall jd, c | jd in q.attached && c in q.attached[jd] ensures StreamOk(q.attached[jd][c], LogOf(q, jd)) {
      LatchGrows(p.mirror, id, generation, jd);
      StreamGrows(p.attached[jd][c], LogOf(p, jd), generation, data);
    }
    forall jd: Id ensures LogOk(LogOf(q, jd), GenerationOf(q.mirror, jd)) {
      LatchGrows(p.mirror, id, generation, jd);
      LogGrows(LogOf(p, jd), GenerationOf(p.mirror, jd), GenerationOf(q.mirror, jd), data);
    }
  }

  lemma MirrorKeeps(p: Plane, m: SM.Event)
    requires PlaneInv(p) && !m.Removed? && !m.AllRemoved? && !m.DataFrom?
    ensures PlaneInv(p.(mirror := SM.Step(p.mirror, m)))
  {
    var later := SM.Step(p.mirror, m);
    forall id: Id ensures GenerationOf(later, id) >= GenerationOf(p.mirror, id) {
      if m.List? {
        UpsertAllGrows(p.mirror.(sessions := map[]), m.list, id);
      }
    }
    hide SM.Step, StreamOk, LogOk, GenerationOf;
    forall id: Id ensures LogOk(LogOf(p, id), GenerationOf(later, id)) {
      LogGrows(LogOf(p, id), GenerationOf(p.mirror, id), GenerationOf(later, id), "");
    }
  }

  lemma DisposeKeeps(p: Plane, id: Id)
    requires PlaneInv(p)
    ensures PlaneInv(PlaneStep(p, Disposed(id)))
  {
    hide StreamOk, LogOk;
    var q := PlaneStep(p, Disposed(id));
    EmptyLogOk(0);
    forall jd: Id ensures LogOk(LogOf(q, jd), GenerationOf(q.mirror, jd)) {
      assert jd != id ==> LogOf(q, jd) == LogOf(p, jd) && GenerationOf(q.mirror, jd) == GenerationOf(p.mirror, jd);
    }
    forall jd, c | jd in q.attached && c in q.attached[jd] ensures StreamOk(q.attached[jd][c], LogOf(q, jd)) {
      assert LogOf(q, jd) == LogOf(p, jd);
    }
  }

  lemma StepKeepsInv(p: Plane, e: Event)
    requires PlaneInv(p)
    ensures PlaneInv(PlaneStep(p, e))
  {
    hide StreamOk, LogOk, ApplyData, Observe, SM.Step;
    match e
    case MirrorEvent(m) =>
      if !m.Removed? && !m.AllRemoved? && !m.DataFrom? { MirrorKeeps(p, m); }
    case DataFrame(id, generation, data) => DataKeeps(p, id, generation, data);
    case AttachAccepted(id, c, token) => JustAttachedOk(token, LogOf(p, id));
    case Disposed(id) => DisposeKeeps(p, id);
    case AllDisposed => EmptyLogOk(0);
    case _ =>
  }

  /** Main result: over every run of the connection each client has received exactly the newest log
      entries, none missing, doubled or reordered, and the generations never go back. */
  lemma {:induction false} RunKeepsInv(es: seq<Event>)
    ensures PlaneInv(Run(es))
  {
    if es == [] {
      EmptyLogOk(0);
    } else {
      hide PlaneInv, PlaneStep;
      RunKeepsInv(es[..|es| - 1]);
      StepKeepsInv(Run(es[..|es| - 1]), es[|es| - 1]);
    }
  }

  /** What the mirror is told by an event. */
  function MirrorEventOf(e: Event): Option<SM.Event> {
    match e
    case MirrorEvent(m) => if m.Removed? || m.AllRemoved? || m.DataFrom? then None else Some(m)
    case DataFrame(id, generation, _) => Some(DataFrom(id, generation))
    case Disposed(id) => Some(Removed(id))
    case AllDisposed => Some(AllRemoved)
    case _ => None
  }

  function Mirrored(es: seq<Event>): seq<SM.Event> {
    if es == [] then []
    else
      match MirrorEventOf(es[|es| - 1])
      case None => Mirrored(es[..|es| - 1])
      case Some(m) => Mirrored(es[..|es| - 1]) + [m]
  }

  /** The highest generation of `id` in the snapshots and DATA since it was last removed. */
  function Newest(es: seq<Event>, id: Id): nat {
    MaxOf(Observed(Mirrored(es), id))
  }

  /** A DATA frame of `id` is kept if it is no older than everything seen of `id` before it. */
  function Keep(log: seq<Append>, e: Event, id: Id, newest: nat): seq<Append> {
    match e
    case DataFrame(d, generation, data) =>
      if d == id && generation >= newest then log + [Append(generation, data)] else log
    case Disposed(d) => if d == id then [] else log
    case AllDisposed => []
    case _ => log
  }

  /** The fresh DATA frames of `id` since it was last removed. */
  function FreshFrames(es: seq<Event>, id: Id): seq<Append> {
    if es == [] then []
    else
      var earlier := es[..|es| - 1];
      Keep(FreshFrames(earlier, id), es[|es| - 1], id, Newest(earlier, id))
  }

  lemma SnocRun(ms: seq<SM.Event>, m: SM.Event)
    ensures SM.Run(ms + [m]) == SM.Step(SM.Run(ms), m)
  {
    assert (ms + [m])[..|ms + [m]| - 1] == ms;
  }

  lemma MirrorStep(p: Plane, e: Event)
    ensures PlaneStep(p, e).mirror ==
            match MirrorEventOf(e) case None => p.mirror case Some(m) => SM.Step(p.mirror, m)
  {
    hide Tagged;
  }

  lemma {:induction false} MirrorFollows(es: seq<Event>)
    ensures Run(es).mirror == SM.Run(Mirrored(es))
  {
    if es != [] {
      hide SM.Step, SM.Run, PlaneStep, MirrorEventOf;
      var earlier, e := es[..|es| - 1], es[|es| - 1];
      MirrorFollows(earlier);
      MirrorStep(Run(earlier), e);
      if MirrorEventOf(e).Some? {
        SnocRun(Mirrored(earlier), MirrorEventOf(e).value);
      }
    }
  }

  lemma LogStep(p: Plane, e: Event, id: Id)
    ensures LogOf(PlaneStep(p, e), id) == Keep(LogOf(p, id), e, id, GenerationOf(p.mirror, id))
  {
    hide SM.Step, Observe, Tagged, GenerationOf;
  }

  lemma LatchIsNewest(es: seq<Event>, id: Id)
    ensures GenerationOf(Run(es).mirror, id) == Newest(es, id)
  {
    MirrorFollows(es);
    LatchIsMaximum(Mirrored(es), id);
  }

  /** Main result: the server-side log is the fresh frames of the run, each with its own generation,
      where fresh means no older than the highest generation seen before in snapshots and DATA. */
  lemma {:induction false} LogIsFreshFrames(es: seq<Event>, id: Id)
    ensures LogOf(Run(es), id) == FreshFrames(es, id)
  {
    hide PlaneStep, LogOf, Newest, GenerationOf, Keep;
    if es == [] {
      EmptyLog(id);
    } else {
      var earlier := es[..|es| - 1];
      LogIsFreshFrames(earlier, id);
      LatchIsNewest(earlier, id);
      LogStep(Run(earlier), es[|es| - 1], id);
    }
  }

  lemma EmptyLog(id: Id)
    ensures LogOf(CONNECTED, id) == []
  {
  }

  // ---------------------------------------------------------------- the host

  datatype Frame =
    | HelloAck(valid: bool, connectionId: nat, generation: nat)
    | NackReply(decodable: bool, requestId: nat, code: nat)
    | AckReply(requestId: nat)
    | SessionList(list: seq<SessionInfo>)
    | SessionUpdate(s: SessionInfo)
    | SessionExit(id: Id)
    | DataPayload(id: Id, generation: nat, data: string)
    | Unknown

  /** How the two planes see a frame. */
  function ControlEvent(f: Frame): RemoteProtocol.Event {
    match f
    case HelloAck(valid, connectionId, generation) => RemoteProtocol.HelloAckFrame(valid, connectionId, generation)
    case NackReply(decodable, requestId, code) => RemoteProtocol.NackFrame(decodable, requestId, code)
    case AckReply(requestId) => RemoteProtocol.AckFrame(requestId)
    case SessionList(_) => RemoteProtocol.SessionListFrame
    case _ => RemoteProtocol.OtherFrame
  }

  /** Before the handshake is complete only the session list is heard. */
  function Hears(p: Plane, state: ConnectionLifecycle.ConnState, f: Frame): Plane {
    if state.SnapshotPending? then
      if f.SessionList? then PlaneStep(p, MirrorEvent(List(f.list))) else p
    else if !state.Ready? then p
    else
      match f
      case SessionList(list) => PlaneStep(p, MirrorEvent(List(list)))
      case SessionUpdate(s) => PlaneStep(p, MirrorEvent(Snapshot(s)))
      case SessionExit(id) => PlaneStep(p, MirrorEvent(Exited(id)))
      case DataPayload(id, generation, data) => PlaneStep(p, DataFrame(id, generation, data))
      case _ => p
  }

  // ---------------------------------------------------------------- clients

  predicate HasToken(p: Plane, id: Id, c: ClientId, token: nat) {
    id in p.attached && c in p.attached[id] && p.attached[id][c].token == token
  }

  /** An accepted attach enters its client with its token and nothing received, and nobody else. */
  lemma AttachEnters(p: Plane, id: Id, c: ClientId, token: nat, jd: Id, d: ClientId)
    ensures var q := PlaneStep(p, AttachAccepted(id, c, token));
            && q.mirror == p.mirror && q.log == p.log
            && id in q.attached && c in q.attached[id] && q.attached[id][c] == Attached(token, 0, [])
            && (jd != id || d != c ==>
                  ((jd in q.attached && d in q.attached[jd]) <==> (jd in p.attached && d in p.attached[jd])) &&
                  (jd in p.attached && d in p.attached[jd] ==> q.attached[jd][d] == p.attached[jd][d]))
  {
  }

  /** A detach takes its client off exactly if it is untagged or carries the attach's own token, and
      touches nobody else; a session without clients has no entry. */
  lemma DetachTakesOff(p: Plane, id: Id, c: ClientId, expectedToken: Option<nat>, jd: Id, d: ClientId)
    requires forall kd :: kd in p.attached ==> p.attached[kd] != map[]
    ensures var q := PlaneStep(p, Detached(id, c, expectedToken));
            && q.mirror == p.mirror && q.log == p.log
            && (jd in q.attached && d in q.attached[jd] <==>
                  && jd in p.attached && d in p.attached[jd]
                  && !(jd == id && d == c && (expectedToken.None? || HasToken(p, id, c, expectedToken.value))))
            && (jd in q.attached && d in q.attached[jd] ==> q.attached[jd][d] == p.attached[jd][d])
            && (forall kd :: kd in q.attached ==> q.attached[kd] != map[])
  {
    if jd in p.attached && d in p.attached[jd] && d != c {
      OthersStay(p.attached[jd], c, d);
    }
  }

  lemma OthersStay(clients: map<ClientId, Attached>, c: ClientId, d: ClientId)
    requires d in clients && d != c
    ensures clients - {c} != map[] && d in clients - {c} && (clients - {c})[d] == clients[d]
  {
    assert d in clients - {c};
  }

  /** What detaches a client here. */
  predicate TakesOff(e: Event, id: Id, c: ClientId, token: nat) {
    match e
    case Detached(jd, d, expected) => jd == id && d == c && (expected.None? || expected.value == token)
    case AttachAccepted(jd, d, _) => jd == id && d == c
    case Disposed(jd) => jd == id
    case AllDisposed => true
    case _ => false
  }

  function RunFrom(p: Plane, es: seq<Event>): Plane
    decreases |es|
  {
    if es == [] then p else RunFrom(PlaneStep(p, es[0]), es[1..])
  }

  lemma StepKeepsClient(p: Plane, e: Event, id: Id, c: ClientId, token: nat)
    requires HasToken(p, id, c, token) && !TakesOff(e, id, c, token)
    ensures HasToken(PlaneStep(p, e), id, c, token)
    ensures p.attached[id][c].received <= PlaneStep(p, e).attached[id][c].received
  {
    hide SM.Step, Observe, GenerationOf;
    if e.Detached? && e.c != c {
      OthersStay(p.attached[id], e.c, c);
    }
  }

  /** Main result: an attach lasts. Over every run only an untagged or own-token detach, a new attach of
      the same client, or the disposal of the session takes a client off, so a detach with an older
      token never detaches a newer attach; and what it has received is never taken back. */
  lemma {:induction false} AttachmentSurvives(p: Plane, es: seq<Event>, id: Id, c: ClientId, token: nat)
    requires HasToken(p, id, c, token) && forall i :: 0 <= i < |es| ==> !TakesOff(es[i], id, c, token)
    ensures HasToken(RunFrom(p, es), id, c, token)
    ensures p.attached[id][c].received <= RunFrom(p, es).attached[id][c].received
    decreases |es|
  {
    hide PlaneStep;
    if es != [] {
      assert !TakesOff(es[0], id, c, token);
      StepKeepsClient(p, es[0], id, c, token);
      forall i | 0 <= i < |es[1..]| ensures !TakesOff(es[1..][i], id, c, token) {
        assert es[1..][i] == es[i + 1];
      }
      AttachmentSurvives(PlaneStep(p, es[0]), es[1..], id, c, token);
    }
  }

  /** Disposing of a session forgets it in every respect, and no other. */
  lemma DisposalForgets(p: Plane, id: Id, jd: Id)
    ensures var q := PlaneStep(p, Disposed(id));
            && id !in q.attached && id !in q.log && id !in q.mirror.sessions && GenerationOf(q.mirror, id) == 0
            && (jd != id ==>
                  && ClientsOf(q, jd) == ClientsOf(p, jd) && LogOf(q, jd) == LogOf(p, jd)
                  && GenerationOf(q.mirror, jd) == GenerationOf(p.mirror, jd)
                  && (jd in q.mirror.sessions <==> jd in p.mirror.sessions)
                  && (jd in q.mirror.sessions ==> q.mirror.sessions[jd] == p.mirror.sessions[jd]))
    ensures var q := PlaneStep(p, AllDisposed);
            jd !in q.attached && jd !in q.log && jd !in q.mirror.sessions && GenerationOf(q.mirror, jd) == 0
  {
  }

  // ---------------------------------------------------------------- which frames are heard

  /** Nothing is heard while connecting or after a drop; between the hello and the first list only the
      list is; then lists, updates, exits and DATA are. The mirror, the clients and the log see of
      them what follows. */
  lemma HearsExactly(p: Plane, state: ConnectionLifecycle.ConnState, f: Frame)
    ensures var q := Hears(p, state, f);
            var heard := state.Ready? || (state.SnapshotPending? && f.SessionList?);
            && (!heard ==> q == p)
            && (heard ==>
                  match f
                  case SessionList(list) => q == p.(mirror := SM.Step(p.mirror, List(list)))
                  case SessionUpdate(s) => q == p.(mirror := SM.Step(p.mirror, Snapshot(s)))
                  case SessionExit(id) => q == p.(mirror := SM.Step(p.mirror, Exited(id)))
                  case DataPayload(id, generation, data) =>
                    && q.mirror == SM.Step(p.mirror, DataFrom(id, generation))
                    && q.attached.Keys == p.attached.Keys
                    && forall jd :: jd != id ==>
                         LogOf(q, jd) == LogOf(p, jd) && (jd in p.attached ==> q.attached[jd] == p.attached[jd])
                  case _ => q == p)
  {
    hide SM.Step, Tagged, GenerationOf;
    if f.DataPayload? {
      DataStepsTheMirror(p, f.id, f.generation, f.data);
    }
  }

  lemma DataStepsTheMirror(p: Plane, id: Id, generation: nat, data: string)
    ensures ApplyData(p, id, generation, data).mirror == SM.Step(p.mirror, DataFrom(id, generation))
  {
    hide Tagged;
  }

  /** Which frames the handshake and the pending requests hear. */
  lemma ControlHears(c: RemoteProtocol.Control, f: Frame, id: nat)
    requires RemoteProtocol.ControlInv(c)
    ensures var d := RemoteProtocol.Step(c, ControlEvent(f));
            && (f.SessionUpdate? || f.SessionExit? || f.DataPayload? || f.Unknown? ==> d == c)
            && (f == AckReply(id) && c.life.state.Ready? && id in c.corr.pending ==>
                  id !in d.corr.pending && id in d.corr.outcomes && d.corr.outcomes[id] == RequestCorrelator.Acked)
            && (f.NackReply? && f.decodable && f.requestId == id != 0 && !c.life.state.Dropped? && id in c.corr.pending ==>
                  && id !in d.corr.pending && id in d.corr.outcomes
                  && d.corr.outcomes[id] == RequestCorrelator.Rejected(RequestCorrelator.NackCode(f.code)))
            && (f.NackReply? && (!f.decodable || f.requestId == 0) ==> d.life.state.Dropped?)
            && (f.SessionList? && c.life.state.SnapshotPending? ==> d.life.state.Ready?)
            && (f.HelloAck? && c.life.state.Connecting? ==>
                  if f.valid then d.life.state.SnapshotPending? else d.life.state.Dropped?)
  {
    if id in c.corr.pending {
      RemoteProtocol.StepSettles(c, ControlEvent(f), id);
    }
    hide RemoteProtocol.ControlInv;
  }

  class RemotePtyHost {
    const lifecycle: ConnectionLifecycle.ConnectionLifecycle
    const correlator: RequestCorrelator.RequestCorrelator
    const mirror: SM.SessionMirror
    var attached: map<Id, map<ClientId, Attached>>
    var log: map<Id, seq<Append>>
    var nextAttachToken: nat
    var parked: nat
    ghost var visited: seq<ConnectionLifecycle.ConnState>

    ghost function Control(): RemoteProtocol.Control
      reads this, lifecycle, correlator
    {
      RemoteProtocol.Control(lifecycle.State(), correlator.State(), parked, visited)
    }

    ghost function Data(): Plane
      reads this, mirror
    {
      Plane(mirror.State(), attached, log)
    }

    constructor ()
      ensures Control() == RemoteProtocol.OPENED && Data() == CONNECTED
      ensures fresh(lifecycle) && fresh(correlator) && fresh(mirror)
    {
      lifecycle := new ConnectionLifecycle.ConnectionLifecycle();
      correlator := new RequestCorrelator.RequestCorrelator();
      mirror := new SM.SessionMirror();
      attached, log, nextAttachToken, parked := map[], map[], 1, 0;
      visited := [ConnectionLifecycle.Connecting];
    }

    method DropWith(err: RequestCorrelator.Error)
      modifies this`visited, lifecycle, correlator
      ensures Control() == RemoteProtocol.HandleDrop(old(Control()), err)
    {
      var dropped := lifecycle.DropConnection(err);
      if dropped {
        visited := visited + [ConnectionLifecycle.Dropped];
        correlator.RejectPending(err);
      }
    }

    method OnHelloAck(valid: bool, connectionId: nat, generation: nat)
      modifies this`visited, lifecycle
      ensures Control() == RemoteProtocol.Step(old(Control()), RemoteProtocol.HelloAckFrame(valid, connectionId, generation))
    {
      if lifecycle.state != ConnectionLifecycle.Connecting {
        return;
      }
      if !valid {
        var dropped := lifecycle.DropConnection(RequestCorrelator.BadHello);
        visited := visited + [ConnectionLifecycle.Dropped];
        return;
      }
      var applied := lifecycle.OnHelloAck(connectionId, generation);
      visited := visited + [ConnectionLifecycle.SnapshotPending];
    }

    method OnNack(decodable: bool, requestId: nat, code: nat)
      modifies this`visited, lifecycle, correlator
      ensures Control() == RemoteProtocol.OnNack(old(Control()), decodable, requestId, code)
    {
      if !decodable {
        DropWith(RequestCorrelator.ConnectionDropped);
        return;
      }
      if requestId != 0 {
        var matched := correlator.OnNack(requestId, RequestCorrelator.NackCode(code));
        return;
      }
      if lifecycle.state == ConnectionLifecycle.Connecting || lifecycle.state == ConnectionLifecycle.SnapshotPending {
        lifecycle.RejectHandshake(RequestCorrelator.NackCode(code));
      }
      DropWith(RequestCorrelator.ConnectionDropped);
    }

    method ApplySessionList(list: seq<SessionInfo>)
      modifies this`visited, lifecycle, mirror
      ensures Control() == RemoteProtocol.Step(old(Control()), RemoteProtocol.SessionListFrame)
      ensures Data() == PlaneStep(old(Data()), MirrorEvent(List(list)))
    {
      mirror.ReplaceAll(list);
      var resolved := lifecycle.OnFirstList();
      if resolved {
        visited := visited + [ConnectionLifecycle.Ready];
      }
    }

    /** Each attached listener gets the data; the wrapper asks the mirror for the tag. */
    method FanOut(id: Id, data: string)
      modifies this`attached
      ensures attached == if id in old(attached) then
                            old(attached)[id := map c | c in old(attached)[id] ::
                              Tagged(old(attached)[id][c], GenerationOf(mirror.State(), id), data)]
                          else old(attached)
    {
      if id !in attached {
        return;
      }
      ghost var was := attached[id];
      var clients := attached[id];
      var todo := clients.Keys;
      while todo != {}
        invariant attached == old(attached) && clients.Keys == was.Keys && todo <= was.Keys
        invariant forall c :: c in was ==>
                    clients[c] == if c in todo then was[c] else Tagged(was[c], GenerationOf(mirror.State(), id), data)
        decreases |todo|
      {
        var c :| c in todo;
        var gen := if id in mirror.latestGeneration then mirror.latestGeneration[id] else 0;
        clients := clients[c := Tagged(clients[c], gen, data)];
        todo := todo - {c};
      }
      assert clients == map c | c in was :: Tagged(was[c], GenerationOf(mirror.State(), id), data);
      attached := attached[id := clients];
    }

    method ApplyDataFrame(id: Id, generation: nat, data: string)
      modifies this`attached, this`log, mirror
      ensures Data() == ApplyData(old(Data()), id, generation, data)
    {
      hide Tagged;
      var stale := mirror.RecordDataGeneration(id, generation);
      if !stale {
        FanOut(id, data);
        log := log[id := (if id in log then log[id] else []) + [Append(generation, data)]];
      }
    }

    /** One frame off the wire, on a connection that is not dropped. */
    method Dispatch(f: Frame)
      requires lifecycle.state != ConnectionLifecycle.Dropped
      modifies this, lifecycle, correlator, mirror
      ensures Control() == RemoteProtocol.Step(old(Control()), ControlEvent(f))
      ensures Data() == Hears(old(Data()), old(lifecycle.state), f)
    {
      hide RemoteProtocol.OnNack, ApplyData, ApplyList;
      if f.HelloAck? {
        OnHelloAck(f.valid, f.connectionId, f.generation);
        return;
      }
      if f.NackReply? {
        OnNack(f.decodable, f.requestId, f.code);
        return;
      }
      if lifecycle.state == ConnectionLifecycle.SnapshotPending {
        if f.SessionList? {
          ApplySessionList(f.list);
        }
        return;
      }
      if lifecycle.state != ConnectionLifecycle.Ready {
        return;
      }
      match f
      case AckReply(requestId) => var matched := correlator.OnAck(requestId);
      case SessionUpdate(s) => mirror.UpsertSession(s);
      case SessionList(list) => ApplySessionList(list);
      case SessionExit(id) => mirror.MarkExited(id);
      case DataPayload(id, generation, data) => ApplyDataFrame(id, generation, data);
      case _ =>
    }

    /** `request`: `None` when it has to wait for the handshake or the connection is gone. */
    method Request(writeFails: bool) returns (requestId: Option<nat>)
      modifies this, lifecycle, correlator
      ensures Control() == RemoteProtocol.Step(old(Control()), RemoteProtocol.RequestMade(writeFails))
      ensures requestId.Some? <==> old(lifecycle.state) == ConnectionLifecycle.Ready
    {
      if lifecycle.state == ConnectionLifecycle.Dropped {
        return None;
      }
      if lifecycle.state == ConnectionLifecycle.Connecting || lifecycle.state == ConnectionLifecycle.SnapshotPending {
        parked := parked + 1;
        return None;
      }
      var id := SendThrough(writeFails);
      return Some(id);
    }

    method SendThrough(writeFails: bool) returns (requestId: nat)
      modifies this`visited, lifecycle, correlator
      ensures Control() == RemoteProtocol.SendRequest(old(Control()), writeFails)
    {
      requestId := correlator.RegisterRequest();
      if lifecycle.state != ConnectionLifecycle.Dropped && writeFails {
        DropWith(RequestCorrelator.ConnectionDropped);
      }
    }

    /** The continuation of a request whose handshake promise resolved. */
    method Resume(writeFails: bool) returns (requestId: nat)
      requires parked > 0 && lifecycle.handshake == ConnectionLifecycle.Resolved
      modifies this, lifecycle, correlator
      ensures Control() == RemoteProtocol.Step(old(Control()), RemoteProtocol.ParkedResumes(writeFails))
    {
      parked := parked - 1;
      requestId := SendThrough(writeFails);
    }

    /** The opening of `initClient`: the token is minted before the daemon is asked. */
    method MintAttachToken() returns (token: nat)
      modifies this`nextAttachToken
      ensures token == old(nextAttachToken) && nextAttachToken == token + 1
    {
      token := nextAttachToken;
      nextAttachToken := nextAttachToken + 1;
    }

    /** The end of `initClient`, once the daemon accepted. */
    method CompleteAttach(id: Id, c: ClientId, token: nat)
      modifies this`attached
      ensures Data() == Attach(old(Data()), id, c, token)
    {
      var bySession := if id in attached then attached[id] else map[];
      attached := attached[id := bySession[c := Attached(token, 0, [])]];
    }

    method DetachClient(id: Id, c: ClientId, expectedToken: Option<nat>)
      modifies this`attached
      ensures Data() == Detach(old(Data()), id, c, expectedToken)
    {
      var bySession := if id in attached then attached[id] else map[];
      if expectedToken.Some? {
        if c !in bySession || bySession[c].token != expectedToken.value {
          return;
        }
      }
      if id in attached {
        bySession := bySession - {c};
        attached := if bySession == map[] then attached - {id} else attached[id := bySession];
      }
    }

    /** The end of `dispose`, once the daemon acknowledged. */
    method CompleteDispose(id: Id)
      modifies this`attached, this`log, mirror
      ensures Data() == PlaneStep(old(Data()), Disposed(id))
    {
      mirror.RemoveSession(id);
      attached := attached - {id};
      log := log - {id};
    }

    /** The end of `disposeAll`. */
    method CompleteDisposeAll()
      modifies this`attached, this`log, mirror
      ensures Data() == PlaneStep(old(Data()), AllDisposed)
    {
      mirror.Clear();
      attached, log := map[], map[];
    }
  }
}
