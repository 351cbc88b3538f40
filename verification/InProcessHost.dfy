/** The in-process host's handling of one session: the mutable `ManagedSession`, the log it writes
    to, and the callbacks of its processes. Every method does to the fields what the corresponding
    step of the state machine does to the state. Methods that run under the session mutex are
    entered only while no other holder is inside (`attaching` is `None`). */
module InProcessHost {
  import opened Wrappers
  import opened Utf8
  import opened ScrollbackSpec
  import opened SessionPolicy
  import opened PtySession
  import opened PtySessionInvariant
  import opened PtySessionEffect
  import opened PtySessionRequests
  import ScrollbackLog

  datatype ReplayKind = ReplayDelta | ReplayFull | ReplayNone

  /** What the init-ack reports of the chunk ring. */
  datatype ServerState = ServerState(generation: nat, lastDelivered: Option<int>, oldest: Option<nat>)

  /** `fullReplay` is what the serialized terminal was given. */
  datatype AttachResponse =
    | Refused
    | Suspended(server: ServerState)
    | Attached(replay: ReplayKind, chunks: seq<Frame>, fullReplay: Bytes, server: ServerState, attachToken: nat)

  function ServerStateOf(ring: Option<Ring>, generation: nat): ServerState {
    if ring.None? then ServerState(generation, None, None)
    else if ring.value.chunks == [] then ServerState(ring.value.generation, None, None)
    else ServerState(ring.value.generation, Some(ring.value.nextSeq - 1), Some(ring.value.chunks[0].seqNo))
  }

  /** The replay a running session owes to a client with these capabilities. */
  function ReplayOwed(cfg: Config, s: Session, caps: Capabilities): ReplayKind {
    var ifAny := if ReadTail(s.disk, cfg.limits) == [] then ReplayNone else ReplayFull;
    var lastSeen := ParseLastSeen(caps.lastSeen);
    if caps.binary && caps.chunkedReplay then
      match ReadSince(s.ring, lastSeen)
      case Delta(_) => ReplayDelta
      case Full => ReplayFull
      case NoReplay => if lastSeen.Some? then ReplayNone else ifAny
    else if caps.binary then ifAny
    else ReplayNone
  }

  function DeltaOwed(s: Session, caps: Capabilities): seq<Frame> {
    var decision := ReadSince(s.ring, ParseLastSeen(caps.lastSeen));
    if caps.binary && caps.chunkedReplay && decision.Delta? then TagAll(s.generation, decision.chunks) else []
  }

  /** The ring as reported: of the current generation, and once something is numbered in it the newest
      number of the history and the oldest one retained. */
  lemma ReportedRing(cfg: Config, s: Session)
    requires Inv(cfg, s)
    ensures var r, h := ServerStateOf(s.ring, s.generation), CurrentHistory(s);
            && r.generation == s.generation
            && (h == [] ==> r.lastDelivered == None && r.oldest == None)
            && (h != [] ==> r.lastDelivered == Some(|h| - 1) && r.oldest.Some? && Retains(h, r.oldest.value, cfg.budget))
  {
    hide DiskInv, WarmInv, SpawnInv, OriginInv, IssuedInv, TagsInv, StdinInv, ClientsInv, FlowInv, LifeInv, Retains,
         RingMatches;
    if s.ring.Some? {
      RetainedChunks(s.ring.value, CurrentHistory(s), cfg.budget);
    }
  }

  lemma RetainedChunks(r: Ring, h: seq<Bytes>, budget: nat)
    requires RingMatches(r, h, budget)
    ensures r.nextSeq == |h| && (h == [] <==> r.chunks == [])
    ensures h != [] ==> r.chunks[0].seqNo == |h| - |r.chunks| && Retains(h, r.chunks[0].seqNo, budget)
  {
  }

  /** The replay named in the answer is the one given: `full` exactly if the client has to wait for it,
      and otherwise `delta` exactly if there are chunks, which are the history after the cursor. */
  lemma ReplayNamed(cfg: Config, s: Session, c: ClientId, dims: Dims, pid: nat, separator: string, caps: Capabilities)
    requires Inv(cfg, s) && s.attaching.None? && s.state == Running
    ensures var t := AttachChunk(cfg, s, c, dims, pid, separator, caps);
            var kind, chunks := ReplayOwed(cfg, s, caps), DeltaOwed(s, caps);
            && (kind == ReplayFull <==> t.attaching.Some?)
            && (kind != ReplayFull ==>
                  && (kind == ReplayDelta <==> chunks != [])
                  && t.clients == s.clients[c := ChunkClient(s.nextToken, false, chunks)])
  {
    ChunkAttachServes(cfg, s, c, dims, pid, separator, caps);
    OwedMatches(cfg, s, caps);
    hide Inv, AttachChunk, MustWait, ReplayOwed, DeltaOwed, ParseLastSeen, Frames, CurrentHistory;
  }

  lemma OwedMatches(cfg: Config, s: Session, caps: Capabilities)
    requires Inv(cfg, s)
    ensures ReplayOwed(cfg, s, caps) == ReplayFull <==> MustWait(cfg, s, caps)
    ensures !MustWait(cfg, s, caps) ==>
              var cursor, h := ParseLastSeen(caps.lastSeen), CurrentHistory(s);
              && (ReplayOwed(cfg, s, caps) == ReplayDelta <==> DeltaOwed(s, caps) != [])
              && DeltaOwed(s, caps) == if caps.binary && caps.chunkedReplay && cursor.Some? && cursor.value.seqNo < |h|
                                       then Frames(s.generation, h, cursor.value.seqNo + 1) else []
  {
    NoCursorNoReplay(s.ring);
    var cursor := ParseLastSeen(caps.lastSeen);
    if caps.binary && caps.chunkedReplay && cursor.Some? {
      CursorDecides(cfg, s, cursor.value);
      if !NeedsFullReplay(s, cursor.value) {
        CursorServes(cfg, s, cursor.value);
        DeltaIsNotEmpty(cfg, s, cursor.value);
      }
    }
    hide Inv, ReadSince, ReadTail, ParseLastSeen, NeedsFullReplay, TagAll, Frames, CurrentHistory;
  }

  lemma DeltaIsNotEmpty(cfg: Config, s: Session, cursor: LastSeen)
    requires Inv(cfg, s)
    ensures ReadSince(s.ring, Some(cursor)).Delta? ==> TagAll(s.generation, ReadSince(s.ring, Some(cursor)).chunks) != []
  {
    hide DiskInv, WarmInv, SpawnInv, OriginInv, IssuedInv, TagsInv, StdinInv, ClientsInv, FlowInv, LifeInv;
    if s.ring.Some? {
      ReadSinceDecides(s.ring.value, CurrentHistory(s), cfg.budget, cursor);
    }
  }

  class ManagedSession {
    const id: ScrollbackLog.Id
    const log: ScrollbackLog.Log
    const command: Command
    var state: RunState
    var endReason: Option<EndReason>
    var infoGeneration: nat
    var currentGeneration: nat
    var process: Option<nat>
    var pid: Option<nat>
    var attachedClients: map<ClientId, Client>
    var outputPaused: bool
    var ptyPaused: bool
    var nextAttachToken: nat
    var attaching: Option<ClientId>
    var replay: Option<Replay>
    var spawns: map<nat, Spawn>
    var headless: Option<Warm>
    var stdin: seq<StdinWrite>
    ghost var chunkLog: map<nat, seq<Bytes>>
    ghost var issued: seq<(nat, nat)>
    ghost var logTags: seq<nat>

    ghost function State(): Session
      reads this, log
    {
      Session(command, state, endReason, infoGeneration, currentGeneration, process, pid, attachedClients, outputPaused,
              ptyPaused, nextAttachToken, attaching, replay, spawns, log.DiskOf(id), log.RingOf(id), headless, chunkLog,
              issued, logTags, stdin)
    }

    function Cfg(): Config {
      Config(log.limits, log.inMemoryBudget)
    }

    /** `create`: the process is spawned by the first attach. */
    constructor (id: ScrollbackLog.Id, log: ScrollbackLog.Log, command: Command)
      requires log.RingOf(id) == None
      ensures this.id == id && this.log == log && State() == Created(command, log.DiskOf(id))
    {
      this.id, this.log, this.command := id, log, command;
      state, endReason, infoGeneration, currentGeneration := Spawning, None, 1, 1;
      process, pid, attachedClients, outputPaused, ptyPaused := None, None, map[], false, false;
      nextAttachToken, attaching, replay, spawns, headless, stdin := 1, None, None, map[], None, [];
      chunkLog, issued, logTags := map[], [], [];
    }

    /** `loadPersistedSession`. */
    constructor Load(id: ScrollbackLog.Id, log: ScrollbackLog.Log, command: Command, generation: nat,
                     recorded: Option<EndReason>, isDaemon: bool, wasGracefulShutdown: bool)
      requires log.RingOf(id) == None
      ensures this.id == id && this.log == log
      ensures State() == Loaded(command, log.DiskOf(id), generation, recorded, isDaemon, wasGracefulShutdown)
    {
      this.id, this.log, this.command := id, log, command;
      var fallback := DeriveLoadFallbackEndReason(isDaemon, wasGracefulShutdown);
      state, endReason := Ended, Some(if recorded.Some? then recorded.value else fallback);
      infoGeneration, currentGeneration := generation, generation;
      process, pid, attachedClients, outputPaused, ptyPaused := None, None, map[], false, false;
      nextAttachToken, attaching, replay, spawns, headless, stdin := 1, None, None, map[], None, [];
      chunkLog, issued, logTags := map[], [], [];
    }

    method ShouldPauseOutput() returns (pause: bool)
      ensures pause == ShouldPause(attachedClients)
    {
      var todo, flags := attachedClients.Keys, [];
      while todo != {}
        invariant todo <= attachedClients.Keys
        invariant |flags| + |todo| == |attachedClients|
        invariant (forall i :: 0 <= i < |flags| ==> flags[i]) <==>
                  (forall c :: c in attachedClients.Keys - todo ==> attachedClients[c].flowPaused)
        decreases |todo|
      {
        var c :| c in todo;
        ghost var before := flags;
        flags := flags + [attachedClients[c].flowPaused];
        assert (forall i :: 0 <= i < |flags| ==> flags[i]) <==>
               (forall i :: 0 <= i < |before| ==> before[i]) && attachedClients[c].flowPaused by {
          assert forall i :: 0 <= i < |before| ==> flags[i] == before[i];
          assert flags[|before|] == attachedClients[c].flowPaused;
        }
        assert attachedClients.Keys - (todo - {c}) == (attachedClients.Keys - todo) + {c};
        todo := todo - {c};
      }
      assert attachedClients.Keys - {} == attachedClients.Keys;
      pause := ShouldPauseOutputForClients(flags);
    }

    method ApplyOutputPauseState()
      modifies this`outputPaused, this`ptyPaused
      ensures State() == ApplyPause(old(State()))
    {
      var shouldPause := ShouldPauseOutput();
      if shouldPause == outputPaused {
        return;
      }
      outputPaused := shouldPause;
      if process.Some? {
        ptyPaused := shouldPause;
      }
    }

    method MintAttachToken(caller: Option<nat>) returns (token: nat)
      modifies this`nextAttachToken
      ensures token == if caller.Some? then caller.value else old(nextAttachToken)
      ensures nextAttachToken == old(nextAttachToken) + if caller.Some? then 0 else 1
    {
      if caller.Some? {
        return caller.value;
      }
      token := nextAttachToken;
      nextAttachToken := nextAttachToken + 1;
    }

    method SpawnProcess(newPid: nat)
      modifies this`process, this`outputPaused, this`ptyPaused, this`pid, this`state, this`spawns
      ensures State() == PtySession.SpawnProcess(old(State()), newPid)
    {
      hide ScrollbackLog.Log.DiskOf, ScrollbackLog.Log.RingOf;
      AttachHandlers();
      process := Some(currentGeneration);
      outputPaused, ptyPaused := false, false;
      MarkRunning(newPid);
    }

    method MarkRunning(newPid: nat)
      modifies this`pid, this`state
      ensures State() == old(State()).(pid := Some(newPid), state := Running)
    {
      hide ScrollbackLog.Log.DiskOf, ScrollbackLog.Log.RingOf;
      pid, state := Some(newPid), Running;
    }

    /** `attachProcHandlers`: the closure of the new process. */
    method AttachHandlers()
      modifies this`spawns
      ensures State() == old(State()).(spawns := old(spawns)[currentGeneration := Spawn("", false, "", [])])
    {
      hide ScrollbackLog.Log.DiskOf, ScrollbackLog.Log.RingOf;
      spawns := spawns[currentGeneration := Spawn("", false, "", [])];
    }

    /** `scrollbackLog.append` and `updateHeadlessState`, which always go together. */
    method RecordOutput(producer: nat, text: string)
      requires log.Valid()
      modifies this`headless, this`replay, this`logTags, log
      ensures log.Valid() && State() == Record(Cfg(), old(State()), producer, text)
    {
      hide ScrollbackLog.Log.DiskOf, ScrollbackLog.Log.RingOf, DiskAppend, ScrollbackLog.Log.Valid;
      log.Append(id, text);
      UpdateHeadlessState(Encode(text));
      logTags := logTags + [producer];
    }

    /** `updateHeadlessState`: the write is queued on the cached terminal; a snapshot that is not
        queued yet will read it. */
    method UpdateHeadlessState(data: Bytes)
      modifies this`headless, this`replay
      ensures headless == WriteWarm(old(headless), data)
      ensures replay == WriteReplay(old(replay), old(headless), data)
    {
      if headless.Some? {
        if replay.Some? && replay.value.open {
          replay := Some(Replay(replay.value.input + data, true));
        }
        headless := Some(Warm(headless.value.dims, headless.value.input + data));
      }
    }

    /** The next generation waits for its process; nobody is attached to it yet. */
    method BumpGeneration()
      requires log.Valid()
      modifies this`currentGeneration, this`infoGeneration, this`state, this`pid, this`endReason, this`attachedClients
      modifies log`rings
      ensures log.Valid() && State() == PtySession.BumpGeneration(old(State()))
    {
      hide ScrollbackLog.Log.DiskOf, ScrollbackLog.Log.RingOf, ScrollbackLog.Log.Valid, EmptyRing;
      var nextGen := currentGeneration + 1;
      currentGeneration := nextGen;
      log.BumpGeneration(id, nextGen);
      infoGeneration := nextGen;
      ResetForSpawn();
    }

    method ResetForSpawn()
      modifies this`state, this`pid, this`endReason, this`attachedClients
      ensures State() == old(State()).(state := Spawning, pid := None, endReason := None, clients := map[])
    {
      hide ScrollbackLog.Log.DiskOf, ScrollbackLog.Log.RingOf;
      state, pid, endReason := Spawning, None, None;
      attachedClients := map[];
    }

    method AutoResumeIfSafe(newPid: nat, separator: string) returns (ok: bool)
      requires log.Valid()
      modifies this, log
      ensures log.Valid() && ok == IsAutoResumable(command, old(endReason))
      ensures State() == if ok then AutoResume(Cfg(), old(State()), newPid, separator) else old(State())
      ensures attaching == old(attaching)
    {
      hide ScrollbackLog.Log.DiskOf, ScrollbackLog.Log.RingOf, ScrollbackLog.Log.Valid, Record, IsAutoResumable,
           PtySession.BumpGeneration,
           PtySession.SpawnProcess;
      if !IsAutoResumable(command, endReason) {
        return false;
      }
      RecordOutput(currentGeneration, separator);
      BumpGeneration();
      SpawnProcess(newPid);
      return true;
    }

    /** The opening that `initClient` and `attachClient` share. */
    method EnsureRunning(newPid: nat, separator: string) returns (ok: bool)
      requires log.Valid()
      modifies this, log
      ensures log.Valid()
      ensures var r := PtySession.EnsureRunning(Cfg(), old(State()), newPid, separator);
              ok == r.Some? && State() == if ok then r.value else old(State())
      ensures attaching == old(attaching)
    {
      hide ScrollbackLog.Log.DiskOf, ScrollbackLog.Log.RingOf, ScrollbackLog.Log.Valid, AutoResume, IsAutoResumable,
           PtySession.SpawnProcess;
      if state == Ended {
        ok := AutoResumeIfSafe(newPid, separator);
        return;
      } else if state == Spawning {
        SpawnProcess(newPid);
      }
      return true;
    }

    method InitClient(c: ClientId, newPid: nat, separator: string, callerToken: Option<nat>)
      returns (token: Option<nat>, replay: Bytes)
      requires log.Valid() && attaching.None?
      modifies this, log
      ensures log.Valid()
      ensures State() == AttachString(Cfg(), old(State()), c, newPid, separator, callerToken)
      ensures var r := PtySession.EnsureRunning(Cfg(), old(State()), newPid, separator);
              && (token.Some? <==> r.Some?)
              && replay == (if r.Some? then ScrollbackSpec.ReadTail(r.value.disk, log.limits) else [])
      ensures token.Some? ==> c in attachedClients && attachedClients[c].token == token.value
      ensures token.Some? && callerToken.Some? ==> token == callerToken
    {
      hide ScrollbackLog.Log.DiskOf, ScrollbackLog.Log.RingOf, ScrollbackLog.Log.Valid, PtySession.EnsureRunning,
           ApplyPause, DiskFlush;
      replay := [];
      var ok := EnsureRunning(newPid, separator);
      if !ok {
        return None, [];
      }
      var attachToken := MintAttachToken(callerToken);
      attachedClients := attachedClients[c := StringClient(attachToken, false, [])];
      ApplyOutputPauseState();
      replay := log.ReadTail(id);
      return Some(attachToken), replay;
    }

    method RegisterChunkClient(c: ClientId, frames: seq<Frame>) returns (token: nat)
      modifies this`nextAttachToken, this`attachedClients, this`outputPaused, this`ptyPaused
      ensures State() == RegisterChunk(old(State()), c, frames) && token == old(nextAttachToken)
      ensures attachedClients == old(attachedClients)[c := ChunkClient(token, false, frames)]
      ensures attaching == old(attaching)
    {
      token := MintAttachToken(None);
      attachedClients := attachedClients[c := ChunkClient(token, false, frames)];
      ApplyOutputPauseState();
    }

    /** The call to `buildFullReplay` up to the await; the mutex stays held. */
    method BeginFullReplay(c: ClientId, tail: Bytes, dims: Dims)
      modifies this`headless, this`replay, this`attaching
      ensures State() == old(State()).(warm := BuildReplay(old(headless), tail, dims),
                                       replay := Some(OpenReplay(old(headless), tail, dims)), attaching := Some(c))
    {
      hide ScrollbackLog.Log.DiskOf, ScrollbackLog.Log.RingOf;
      replay := Some(Replay(tail, tail != []));
      if headless.Some? && headless.value.dims == dims {
        replay := Some(Replay(headless.value.input, false));
      }
      if headless.Some? && headless.value.dims != dims {
        headless := None;
      }
      if headless.None? && tail != [] {
        headless := Some(Warm(dims, tail));
      }
      attaching := Some(c);
    }

    method ReportRing(generation: nat) returns (server: ServerState)
      ensures server == ServerStateOf(log.RingOf(id), generation)
    {
      var ringGeneration, lastDelivered, oldest := log.RingState(id, generation);
      server := ServerState(ringGeneration, lastDelivered, oldest);
    }

    method AttachClient(c: ClientId, dims: Dims, newPid: nat, separator: string, caps: Capabilities)
      returns (r: AttachResponse)
      requires log.Valid() && attaching.None?
      modifies this, log
      ensures log.Valid()
      ensures State() == AttachChunk(Cfg(), old(State()), c, dims, newPid, separator, caps)
      ensures var s := PtySession.EnsureRunning(Cfg(), old(State()), newPid, separator);
              && (r.Refused? <==> s.None?)
              && (s.Some? ==>
                    && (r.Suspended? <==> ReplayOwed(Cfg(), s.value, caps) == ReplayFull)
                    && r.server == ServerStateOf(s.value.ring, s.value.generation)
                    && (r.Attached? ==>
                          && r.replay == ReplayOwed(Cfg(), s.value, caps)
                          && r.chunks == DeltaOwed(s.value, caps) && r.fullReplay == []))
      ensures r.Suspended? <==> attaching.Some?
      ensures r.Attached? ==> c in attachedClients && attachedClients[c] == ChunkClient(r.attachToken, false, r.chunks)
    {
      hide ScrollbackLog.Log.DiskOf, ScrollbackLog.Log.RingOf, ScrollbackLog.Log.Valid, PtySession.EnsureRunning,
           RegisterChunk, DiskFlush, ReadTail, ReadSince, ParseLastSeen, TagAll, BuildReplay, OpenReplay, ServerStateOf;
      var ok := EnsureRunning(newPid, separator);
      if !ok {
        return Refused;
      }
      label Started:
      var generation := currentGeneration;
      var server := ReportRing(generation);
      var lastSeen := ParseLastSeen(caps.lastSeen);
      var frames: seq<Frame> := [];
      var replay, tail := ReplayNone, [];
      if caps.binary && caps.chunkedReplay {
        var decision := log.ReadSince(id, lastSeen);
        if decision.Delta? {
          frames := TagAll(generation, decision.chunks);
          replay := ReplayDelta;
        } else if decision.Full? {
          tail := log.ReadTail(id);
          replay := ReplayFull;
        } else if lastSeen.None? {
          tail := log.ReadTail(id);
          replay := if tail != [] then ReplayFull else ReplayNone;
        }
      } else if caps.binary {
        tail := log.ReadTail(id);
        replay := if tail != [] then ReplayFull else ReplayNone;
      }
      if replay == ReplayFull {
        BeginFullReplay(c, tail, dims);
        return Suspended(server);
      }
      var token := RegisterChunkClient(c, frames);
      return Attached(replay, frames, [], server, token);
    }

    /** The rebuilt terminal has parsed the tail; the snapshot is queued behind what followed it. */
    method OnFirstWriteDone()
      modifies this`replay
      ensures State() == FirstWriteDone(old(State()))
    {
      if replay.Some? && replay.value.open {
        replay := Some(Replay(replay.value.input, false));
      }
    }

    /** The snapshot is taken: register and release the mutex. */
    method FinishAttach(server: ServerState) returns (r: AttachResponse)
      requires attaching.Some? && replay.Some? && !replay.value.open
      modifies this`nextAttachToken, this`attachedClients, this`outputPaused, this`ptyPaused, this`attaching, this`replay
      ensures State() == PtySession.FinishAttach(old(State()))
      ensures r == Attached(ReplayFull, [], old(replay).value.input, server, old(nextAttachToken))
    {
      hide ScrollbackLog.Log.DiskOf, ScrollbackLog.Log.RingOf;
      var c, fullReplay := attaching.value, replay.value.input;
      attaching, replay := None, None;
      var token := RegisterChunkClient(c, []);
      return Attached(ReplayFull, [], fullReplay, server, token);
    }

    method DetachClient(c: ClientId, expectedToken: Option<nat>)
      modifies this`attachedClients, this`outputPaused, this`ptyPaused
      ensures State() == Detach(old(State()), c, expectedToken)
    {
      if expectedToken.Some? {
        if c !in attachedClients || attachedClients[c].token != expectedToken.value {
          return;
        }
      }
      attachedClients := attachedClients - {c};
      ApplyOutputPauseState();
    }

    /** `pauseOutput` (`paused`) and `resumeOutput`. */
    method SetFlowPaused(c: ClientId, paused: bool)
      modifies this`attachedClients, this`outputPaused, this`ptyPaused
      ensures State() == SetFlow(old(State()), c, paused)
    {
      if process.None? || c !in attachedClients {
        return;
      }
      attachedClients := attachedClients[c := attachedClients[c].(flowPaused := paused)];
      ApplyOutputPauseState();
    }

    /** `onData` of the process spawned for generation `g`. */
    method OnData(g: nat, text: string)
      modifies this`spawns
      ensures State() == Data(old(State()), g, text)
    {
      if g !in spawns {
        return;
      }
      var p := spawns[g];
      spawns := spawns[g := Spawn(p.pendingData + text, true, p.emitted + text, p.batches)];
    }

    method FindChunkClient() returns (found: bool)
      ensures found == HasChunkClient(attachedClients)
    {
      found := false;
      var todo := attachedClients.Keys;
      while todo != {} && !found
        invariant todo <= attachedClients.Keys
        invariant found ==> HasChunkClient(attachedClients)
        invariant !found ==> forall c :: c in attachedClients.Keys - todo ==> !attachedClients[c].ChunkClient?
        decreases |todo|
      {
        var c :| c in todo;
        found := attachedClients[c].ChunkClient?;
        todo := todo - {c};
      }
    }

    /** Hand the batch to every listener. */
    method Deliveries(frame: Option<Frame>, batch: string)
      modifies this`attachedClients
      ensures attachedClients == map c | c in old(attachedClients) :: Deliver(old(attachedClients)[c], frame, batch)
    {
      ghost var was := attachedClients;
      var todo := attachedClients.Keys;
      while todo != {}
        invariant attachedClients.Keys == was.Keys && todo <= was.Keys
        invariant forall c :: c in was ==>
                    attachedClients[c] == if c in todo then was[c] else Deliver(was[c], frame, batch)
        decreases |todo|
      {
        var c :| c in todo;
        attachedClients := attachedClients[c := Deliver(attachedClients[c], frame, batch)];
        todo := todo - {c};
      }
    }

    /** The `setImmediate` callback of the process spawned for generation `g`. */
    method OnImmediate(g: nat)
      requires log.Valid()
      modifies this, log
      ensures log.Valid() && State() == Flush(Cfg(), old(State()), g)
    {
      if g !in spawns || !spawns[g].flushScheduled {
        return;
      }
      var p := spawns[g];
      var batch := p.pendingData;
      spawns := spawns[g := Spawn("", false, p.emitted, p.batches + [batch])];
      if g == currentGeneration {
        BroadcastBatch(g, batch);
      }
    }

    method BroadcastBatch(g: nat, batch: string)
      requires log.Valid()
      modifies this, log
      ensures log.Valid() && State() == Broadcast(Cfg(), old(State()), g, batch)
    {
      hide ScrollbackLog.Log.DiskOf, ScrollbackLog.Log.RingOf, ScrollbackLog.Log.Valid, Record,
           PtySession.NumberBatch, Deliver;
      RecordOutput(g, batch);
      var hasChunkClient := FindChunkClient();
      if hasChunkClient {
        var data := Encode(batch);
        var seqNo := NumberBatch(g, data);
        Deliveries(Some(Frame(g, seqNo, data)), batch);
      } else {
        Deliveries(None, batch);
      }
    }

    method NumberBatch(g: nat, data: Bytes) returns (seqNo: nat)
      requires log.Valid()
      modifies this`chunkLog, this`issued, log`rings
      ensures log.Valid() && State() == PtySession.NumberBatch(Cfg(), old(State()), g, data)
      ensures |issued| > 0 && seqNo == issued[|issued| - 1].1
    {
      hide ScrollbackLog.Log.DiskOf, ScrollbackLog.Log.RingOf, ScrollbackLog.Log.Valid, RingAppend;
      seqNo := log.AppendChunk(id, g, data);
      chunkLog := chunkLog[g := ChunkHistory(chunkLog, g) + [data]];
      issued := issued + [(g, seqNo)];
    }

    method End(reason: EndReason)
      modifies this`state, this`pid, this`endReason, this`process
      ensures State() == PtySession.End(old(State()), reason)
    {
      hide ScrollbackLog.Log.DiskOf, ScrollbackLog.Log.RingOf;
      state, pid, endReason := Ended, None, Some(reason);
      process := None;
    }

    /** The exit handler of the process spawned for generation `g`, once it holds the mutex. */
    method OnExit(g: nat, signal: Option<int>, exitCode: int)
      requires attaching.None? && g in spawns
      modifies this`state, this`pid, this`endReason, this`process
      ensures State() == ProcessExit(old(State()), g, signal, exitCode)
    {
      if currentGeneration != g {
        return;
      }
      if state == Ended {
        return;
      }
      End(DeriveEndReason(signal, exitCode));
    }

    /** `restart`; `false` is the thrown "not ended" error. */
    method Restart() returns (ok: bool)
      requires log.Valid() && attaching.None?
      modifies this, log`rings
      ensures log.Valid() && ok == (old(state) == Ended) && State() == PtySession.Restart(old(State()))
    {
      hide ScrollbackLog.Log.DiskOf, ScrollbackLog.Log.RingOf, ScrollbackLog.Log.Valid, PtySession.BumpGeneration;
      if state != Ended {
        return false;
      }
      BumpGeneration();
      process := None;
      return true;
    }

    /** What `shutdownAll` does to one session. */
    method ShutDown(reason: EndReason)
      requires attaching.None?
      modifies this`state, this`pid, this`endReason, this`process
      ensures State() == Shutdown(old(State()), reason)
    {
      if state == Ended {
        return;
      }
      End(reason);
    }

    method Write(data: string, generation: Option<nat>)
      modifies this`stdin
      ensures State() == PtySession.Write(old(State()), data, generation)
    {
      if process.None? {
        return;
      }
      if ShouldDropStaleInput(generation, currentGeneration) {
        return;
      }
      stdin := stdin + [StdinWrite(process.value, generation, data)];
    }
  }
}
