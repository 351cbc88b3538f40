/** One PTY session of the in-process host as a state machine: what every step of the event loop
    does to the session, its clients, its log, its chunk ring and its warm terminal state.

    A step is what runs between two awaits. While `attaching` is set a full replay is being built
    and the session mutex is held: steps that need the mutex wait (they leave the state alone and
    are taken again later), steps that do not need it interleave freely. */
module PtySession {
  import opened Wrappers
  import opened Utf8
  import opened ScrollbackSpec
  import opened SessionPolicy

  type ClientId = nat

  datatype RunState = Spawning | Running | Ended

  datatype Frame = Frame(generation: nat, seqNo: nat, data: Bytes)

  datatype Client =
    | StringClient(token: nat, flowPaused: bool, heard: seq<string>)
    | ChunkClient(token: nat, flowPaused: bool, frames: seq<Frame>)

  /** The per-spawn closure (`pendingData`, `flushScheduled`), and what that process has emitted
      and had flushed so far. */
  datatype Spawn = Spawn(pendingData: string, flushScheduled: bool, emitted: string, batches: seq<string>)

  datatype StdinWrite = StdinWrite(spawn: nat, tag: Option<nat>, data: string)

  /** A cached headless terminal, represented by everything written to it. */
  datatype Warm = Warm(dims: Dims, input: Bytes)

  /** A full replay on its way to a client: what the terminal that is going to be serialized has been
      given. It is `open` while the first write into a rebuilt terminal is in flight: whatever is
      written to that terminal until then is still read; a warm terminal is read as it stood. */
  datatype Replay = Replay(input: Bytes, open: bool)

  datatype Config = Config(limits: Limits, budget: nat)

  /** The last four fields are observations, not fields of the host: per generation the chunks
      that were given a number, the (generation, number) pairs in the order they were given out,
      the generation that produced each append to the disk log, and the writes to stdin. */
  datatype Session = Session(
    command: Command,
    state: RunState,
    endReason: Option<EndReason>,
    infoGeneration: nat,
    generation: nat,
    process: Option<nat>,
    pid: Option<nat>,
    clients: map<ClientId, Client>,
    outputPaused: bool,
    ptyPaused: bool,
    nextToken: nat,
    attaching: Option<ClientId>,
    replay: Option<Replay>,
    spawns: map<nat, Spawn>,
    disk: Disk,
    ring: Option<Ring>,
    warm: Option<Warm>,
    chunkLog: map<nat, seq<Bytes>>,
    issued: seq<(nat, nat)>,
    logTags: seq<nat>,
    stdin: seq<StdinWrite>
  )

  function ChunkHistory(chunkLog: map<nat, seq<Bytes>>, generation: nat): seq<Bytes> {
    if generation in chunkLog then chunkLog[generation] else []
  }

  // ---------------------------------------------------------------- helpers shared by the steps

  predicate ShouldPause(clients: map<ClientId, Client>) {
    |clients| == 1 && forall c :: c in clients ==> clients[c].flowPaused
  }

  /** `applyOutputPauseState`: the process hears about a change only if there is one. */
  function ApplyPause(s: Session): Session {
    var pause := ShouldPause(s.clients);
    if pause == s.outputPaused then s
    else s.(outputPaused := pause, ptyPaused := if s.process.Some? then pause else s.ptyPaused)
  }

  /** `spawnProcess`: the process is identified by the generation it is spawned for. */
  function SpawnProcess(s: Session, pid: nat): Session {
    s.(process := Some(s.generation), pid := Some(pid), state := Running, outputPaused := false, ptyPaused := false,
       spawns := s.spawns[s.generation := Spawn("", false, "", [])])
  }

  /** The part that `restart` and `autoResumeIfSafe` share. */
  function BumpGeneration(s: Session): Session {
    var next := s.generation + 1;
    s.(generation := next, infoGeneration := next, ring := Some(EmptyRing(next)), state := Spawning, pid := None,
       endReason := None, clients := map[])
  }

  /** A terminal that is cached gets what is written; one that has left the cache does not. */
  function WriteWarm(warm: Option<Warm>, data: Bytes): Option<Warm> {
    if warm.Some? then Some(Warm(warm.value.dims, warm.value.input + data)) else None
  }

  function WriteReplay(replay: Option<Replay>, warm: Option<Warm>, data: Bytes): Option<Replay> {
    if replay.Some? && replay.value.open && warm.Some? then Some(Replay(replay.value.input + data, true)) else replay
  }

  /** Bytes that go to the disk log and to the warm terminal together, from the process spawned for
      generation `producer` or from the host on its behalf. */
  function Record(cfg: Config, s: Session, producer: nat, text: string): Session {
    s.(disk := DiskAppend(s.disk, Encode(text), cfg.limits),
       warm := WriteWarm(s.warm, Encode(text)),
       replay := WriteReplay(s.replay, s.warm, Encode(text)),
       logTags := s.logTags + [producer])
  }

  function AutoResume(cfg: Config, s: Session, pid: nat, separator: string): Session {
    SpawnProcess(BumpGeneration(Record(cfg, s, s.generation, separator)), pid)
  }

  /** The opening of both attach calls; `None` is a refusal. */
  function EnsureRunning(cfg: Config, s: Session, pid: nat, separator: string): Option<Session> {
    match s.state
    case Ended => if IsAutoResumable(s.command, s.endReason) then Some(AutoResume(cfg, s, pid, separator)) else None
    case Spawning => Some(SpawnProcess(s, pid))
    case Running => Some(s)
  }

  function Register(s: Session, c: ClientId, client: Client): Session {
    ApplyPause(s.(clients := s.clients[c := client]))
  }

  function RegisterChunk(s: Session, c: ClientId, frames: seq<Frame>): Session {
    Register(s.(nextToken := s.nextToken + 1), c, ChunkClient(s.nextToken, false, frames))
  }

  function TagAll(generation: nat, chunks: seq<Chunk>): (r: seq<Frame>)
    ensures |r| == |chunks|
  {
    seq(|chunks|, i requires 0 <= i < |chunks| => Frame(generation, chunks[i].seqNo, chunks[i].data))
  }

  /** `snapshot(dims) ?? rebuild(tail, dims)`: neither awaits anything but a settled promise before
      the rebuilt state holds the tail, so no flush comes between reading the tail and writing it. */
  function BuildReplay(warm: Option<Warm>, tail: Bytes, dims: Dims): Option<Warm> {
    if warm.Some? && warm.value.dims == dims then warm
    else if tail == [] then None
    else Some(Warm(dims, tail))
  }

  function OpenReplay(warm: Option<Warm>, tail: Bytes, dims: Dims): Replay {
    if warm.Some? && warm.value.dims == dims then Replay(warm.value.input, false) else Replay(tail, tail != [])
  }

  function FlushLog(cfg: Config, s: Session): Session {
    s.(disk := DiskFlush(s.disk, cfg.limits))
  }

  /** The branches that read the disk tail and await the replay. */
  function Suspend(cfg: Config, s: Session, c: ClientId, dims: Dims): Session {
    var tail := ReadTail(s.disk, cfg.limits);
    FlushLog(cfg, s).(warm := BuildReplay(s.warm, tail, dims), replay := Some(OpenReplay(s.warm, tail, dims)),
                      attaching := Some(c))
  }

  function SuspendUnlessEmpty(cfg: Config, s: Session, c: ClientId, dims: Dims): Session {
    if ReadTail(s.disk, cfg.limits) == [] then RegisterChunk(FlushLog(cfg, s), c, []) else Suspend(cfg, s, c, dims)
  }

  // ---------------------------------------------------------------- the steps

  function AttachString(cfg: Config, s: Session, c: ClientId, pid: nat, separator: string,
                        callerToken: Option<nat>): Session {
    if s.attaching.Some? then s
    else
      var running := EnsureRunning(cfg, s, pid, separator);
      if running.None? then s
      else
        var t := running.value;
        var token := if callerToken.Some? then callerToken.value else t.nextToken;
        var minted := t.(nextToken := if callerToken.Some? then t.nextToken else t.nextToken + 1);
        FlushLog(cfg, Register(minted, c, StringClient(token, false, [])))
  }

  datatype Capabilities = Capabilities(binary: bool, chunkedReplay: bool, lastSeen: Option<WireLastSeen>)

  function AttachChunk(cfg: Config, s: Session, c: ClientId, dims: Dims, pid: nat, separator: string,
                       caps: Capabilities): Session {
    if s.attaching.Some? then s
    else
      var running := EnsureRunning(cfg, s, pid, separator);
      if running.None? then s
      else
        var t, lastSeen := running.value, ParseLastSeen(caps.lastSeen);
        if caps.binary && caps.chunkedReplay then
          match ReadSince(t.ring, lastSeen)
          case Delta(chunks) => RegisterChunk(t, c, TagAll(t.generation, chunks))
          case Full => Suspend(cfg, t, c, dims)
          case NoReplay => if lastSeen.Some? then RegisterChunk(t, c, []) else SuspendUnlessEmpty(cfg, t, c, dims)
        else if caps.binary then SuspendUnlessEmpty(cfg, t, c, dims)
        else RegisterChunk(t, c, [])
  }

  predicate ReplayOpen(s: Session) {
    s.replay.Some? && s.replay.value.open
  }

  /** The first write into the rebuilt terminal is done: the snapshot is queued behind it. */
  function FirstWriteDone(s: Session): Session {
    if ReplayOpen(s) then s.(replay := Some(Replay(s.replay.value.input, false))) else s
  }

  /** The snapshot has been taken: register and release the mutex. */
  function FinishAttach(s: Session): Session {
    if s.attaching.None? || ReplayOpen(s) then s
    else RegisterChunk(s.(attaching := None, replay := None), s.attaching.value, [])
  }

  function Detach(s: Session, c: ClientId, expectedToken: Option<nat>): Session {
    if expectedToken.Some? && (c !in s.clients || s.clients[c].token != expectedToken.value) then s
    else ApplyPause(s.(clients := s.clients - {c}))
  }

  function SetFlow(s: Session, c: ClientId, paused: bool): Session {
    if s.process.None? || c !in s.clients then s
    else ApplyPause(s.(clients := s.clients[c := s.clients[c].(flowPaused := paused)]))
  }

  /** Process `g` writes to its terminal. */
  function Data(s: Session, g: nat, text: string): Session {
    if g !in s.spawns then s
    else
      var p := s.spawns[g];
      s.(spawns := s.spawns[g := Spawn(p.pendingData + text, true, p.emitted + text, p.batches)])
  }

  function Deliver(client: Client, frame: Option<Frame>, batch: string): Client {
    match client
    case StringClient(_, _, heard) => client.(heard := heard + [batch])
    case ChunkClient(_, _, frames) => if frame.Some? then client.(frames := frames + [frame.value]) else client
  }

  predicate HasChunkClient(clients: map<ClientId, Client>) {
    exists c :: c in clients && clients[c].ChunkClient?
  }

  /** Number the batch in generation `g` and put it into the ring. */
  function NumberBatch(cfg: Config, s: Session, g: nat, data: Bytes): Session {
    var unnumbered := s.ring.None? || s.ring.value.generation != g;
    var seqNo := if unnumbered then 0 else s.ring.value.nextSeq;
    s.(ring := Some(RingAppend(s.ring, g, data, cfg.budget)),
       chunkLog := s.chunkLog[g := ChunkHistory(s.chunkLog, g) + [data]],
       issued := s.issued + [(g, seqNo)])
  }

  /** What a flush of spawn `g` does with its batch while `g` is the current generation. */
  function Broadcast(cfg: Config, s: Session, g: nat, batch: string): Session {
    var t := Record(cfg, s, g, batch);
    if HasChunkClient(t.clients) then
      var u := NumberBatch(cfg, t, g, Encode(batch));
      var frame := Frame(g, u.issued[|u.issued| - 1].1, Encode(batch));
      u.(clients := map c | c in u.clients :: Deliver(u.clients[c], Some(frame), batch))
    else t.(clients := map c | c in t.clients :: Deliver(t.clients[c], None, batch))
  }

  function TakeBatch(s: Session, g: nat): Session
    requires g in s.spawns
  {
    var p := s.spawns[g];
    s.(spawns := s.spawns[g := Spawn("", false, p.emitted, p.batches + [p.pendingData])])
  }

  /** The `setImmediate` callback of spawn `g`; it does not take the mutex. */
  function Flush(cfg: Config, s: Session, g: nat): Session {
    if g !in s.spawns || !s.spawns[g].flushScheduled then s
    else
      var t := TakeBatch(s, g);
      if g == s.generation then Broadcast(cfg, t, g, s.spawns[g].pendingData) else t
  }

  function End(s: Session, reason: EndReason): Session {
    s.(state := Ended, pid := None, process := None, endReason := Some(reason))
  }

  /** The exit handler of spawn `g`, once it holds the mutex. */
  function ProcessExit(s: Session, g: nat, signal: Option<int>, exitCode: int): Session {
    if s.attaching.Some? || g !in s.spawns || s.generation != g || s.state == Ended then s
    else End(s, DeriveEndReason(signal, exitCode))
  }

  function Restart(s: Session): Session {
    if s.attaching.Some? || s.state != Ended then s else BumpGeneration(s).(process := None)
  }

  function Shutdown(s: Session, reason: EndReason): Session {
    if s.attaching.Some? || s.state == Ended then s else End(s, reason)
  }

  function Write(s: Session, data: string, tag: Option<nat>): Session {
    if s.process.None? || ShouldDropStaleInput(tag, s.generation) then s
    else s.(stdin := s.stdin + [StdinWrite(s.process.value, tag, data)])
  }

  datatype Event =
    | EvAttachString(c: ClientId, pid: nat, separator: string, callerToken: Option<nat>)
    | EvAttachChunk(c: ClientId, dims: Dims, pid: nat, separator: string, caps: Capabilities)
    | EvFirstWriteDone
    | EvFinishAttach
    | EvDetach(c: ClientId, expectedToken: Option<nat>)
    | EvSetFlow(c: ClientId, paused: bool)
    | EvData(g: nat, text: string)
    | EvFlush(g: nat)
    | EvExit(g: nat, signal: Option<int>, exitCode: int)
    | EvRestart
    | EvShutdown(reason: EndReason)
    | EvWrite(data: string, tag: Option<nat>)
    | EvLogTimer
    | EvLogFlush
    | EvCacheDrop
    | EvOtherSessionMints

  function Step(cfg: Config, s: Session, e: Event): Session {
    match e
    case EvAttachString(c, pid, separator, callerToken) => AttachString(cfg, s, c, pid, separator, callerToken)
    case EvAttachChunk(c, dims, pid, separator, caps) => AttachChunk(cfg, s, c, dims, pid, separator, caps)
    case EvFirstWriteDone => FirstWriteDone(s)
    case EvFinishAttach => FinishAttach(s)
    case EvDetach(c, expectedToken) => Detach(s, c, expectedToken)
    case EvSetFlow(c, paused) => SetFlow(s, c, paused)
    case EvData(g, text) => Data(s, g, text)
    case EvFlush(g) => Flush(cfg, s, g)
    case EvExit(g, signal, exitCode) => ProcessExit(s, g, signal, exitCode)
    case EvRestart => Restart(s)
    case EvShutdown(reason) => Shutdown(s, reason)
    case EvWrite(data, tag) => Write(s, data, tag)
    case EvLogTimer => s.(disk := DiskStep(s.disk, TimerFires, cfg.limits))
    case EvLogFlush => FlushLog(cfg, s)
    case EvCacheDrop => s.(warm := None)
    case EvOtherSessionMints => s.(nextToken := s.nextToken + 1)
  }

  function Run(cfg: Config, s: Session, es: seq<Event>): Session
    decreases |es|
  {
    if es == [] then s else Run(cfg, Step(cfg, s, es[0]), es[1..])
  }

  // ---------------------------------------------------------------- the two ways a session begins

  function Created(command: Command, disk: Disk): Session {
    Session(command, Spawning, None, 1, 1, None, None, map[], false, false, 1, None, None, map[], disk, None, None,
            map[], [], [], [])
  }

  function Loaded(command: Command, disk: Disk, generation: nat, recorded: Option<EndReason>, isDaemon: bool,
                  wasGraceful: bool): Session {
    var reason := if recorded.Some? then recorded.value else DeriveLoadFallbackEndReason(isDaemon, wasGraceful);
    Created(command, disk).(state := Ended, endReason := Some(reason), infoGeneration := generation,
                            generation := generation)
  }
}
