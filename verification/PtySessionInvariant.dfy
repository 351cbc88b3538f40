/** What every step of a session keeps. */
module PtySessionInvariant {
  import opened Wrappers
  import opened Utf8
  import opened ScrollbackSpec
  import opened SessionPolicy
  import opened PtySession

  /** Running, having a process and having a pid are one thing; the process belongs to the current
      generation; a session waiting to spawn has no clients; a replay is only built while running. */
  predicate LifeInv(s: Session) {
    && (s.state == Running <==> s.process.Some?)
    && (s.process.Some? <==> s.pid.Some?)
    && s.infoGeneration == s.generation
    && (s.process.Some? ==> s.process.value == s.generation)
    && (s.state == Spawning ==> s.clients == map[])
    && (s.attaching.Some? ==> s.state == Running)
    && (s.state == Ended ==> s.endReason.Some?)
  }

  /** A running process is paused exactly when its one client asked for it. */
  predicate FlowInv(s: Session) {
    s.state == Running ==> s.outputPaused == s.ptyPaused == ShouldPause(s.clients)
  }

  function Joined(batches: seq<string>): string {
    if batches == [] then "" else Joined(batches[..|batches| - 1]) + batches[|batches| - 1]
  }

  function EncodeEach(batches: seq<string>): (r: seq<Bytes>)
    ensures |r| == |batches|
  {
    seq(|batches|, i requires 0 <= i < |batches| => Encode(batches[i]))
  }

  /** No spawn is ahead of the session, the current one exists once it is not `Spawning`, and each
      has flushed, in order and without loss, what it emitted. */
  predicate SpawnInv(spawns: map<nat, Spawn>, generation: nat, state: RunState) {
    && (forall g :: g in spawns ==> g <= generation && SpawnOk(spawns[g]))
    && (generation in spawns ==> state != Spawning)
    && (state == Running ==> generation in spawns)
  }

  predicate SpawnOk(p: Spawn) {
    && Joined(p.batches) + p.pendingData == p.emitted
    && (!p.flushScheduled ==> p.pendingData == "")
  }

  predicate Subsequence(a: seq<Bytes>, b: seq<Bytes>) {
    a == [] ||
    (b != [] && ((a[|a| - 1] == b[|b| - 1] && Subsequence(a[..|a| - 1], b[..|b| - 1])) || Subsequence(a, b[..|b| - 1])))
  }

  /** The ring belongs to the current generation and retains the suffix of its history that fits. */
  ghost predicate RingInv(ring: Option<Ring>, chunkLog: map<nat, seq<Bytes>>, generation: nat, budget: nat) {
    if ring.None? then ChunkHistory(chunkLog, generation) == []
    else ring.value.generation == generation && RingMatches(ring.value, ChunkHistory(chunkLog, generation), budget)
  }

  /** Chunks numbered under generation `g` are batches that spawn `g` flushed, in its order. */
  predicate OriginInv(chunkLog: map<nat, seq<Bytes>>, spawns: map<nat, Spawn>) {
    forall g :: g in chunkLog ==> g in spawns && Subsequence(chunkLog[g], EncodeEach(spawns[g].batches))
  }

  /** No (generation, number) pair was given out twice, and each names a chunk of the history. */
  predicate IssuedInv(issued: seq<(nat, nat)>, chunkLog: map<nat, seq<Bytes>>) {
    && (forall i :: 0 <= i < |issued| ==> issued[i].1 < |ChunkHistory(chunkLog, issued[i].0)|)
    && (forall i, j :: 0 <= i < j < |issued| ==> issued[i] != issued[j])
  }

  function Frames(generation: nat, h: seq<Bytes>, from: nat): (r: seq<Frame>)
    requires from <= |h|
    ensures |r| == |h| - from
  {
    seq(|h| - from, i requires 0 <= i < |h| - from => Frame(generation, from + i, h[from + i]))
  }

  /** What a chunk client has received is an unbroken run of the current generation's history
      that ends with its newest chunk. */
  predicate ClientOk(client: Client, generation: nat, h: seq<Bytes>, nextToken: nat) {
    client.ChunkClient? ==>
      && client.token < nextToken
      && |client.frames| <= |h|
      && client.frames == Frames(generation, h, |h| - |client.frames|)
  }

  predicate ClientsInv(clients: map<ClientId, Client>, generation: nat, h: seq<Bytes>, nextToken: nat) {
    forall c :: c in clients ==> ClientOk(clients[c], generation, h, nextToken)
  }

  /** Generations that produced the disk log never go back. */
  predicate TagsInv(logTags: seq<nat>, generation: nat) {
    && (forall i :: 0 <= i < |logTags| ==> logTags[i] <= generation)
    && (forall i, j :: 0 <= i < j < |logTags| ==> logTags[i] <= logTags[j])
  }

  predicate StdinInv(stdin: seq<StdinWrite>) {
    forall i :: 0 <= i < |stdin| ==> !ShouldDropStaleInput(stdin[i].tag, stdin[i].spawn)
  }

  /** A warm terminal has seen a suffix of the session's history, and all of it while it is short. */
  predicate WarmInv(warm: Option<Warm>, h: Bytes, tailBytes: nat) {
    warm.Some? ==> IsSuffix(warm.value.input, h) && (|h| <= tailBytes ==> warm.value.input == h)
  }

  ghost predicate Inv(cfg: Config, s: Session) {
    && LifeInv(s)
    && FlowInv(s)
    && SpawnInv(s.spawns, s.generation, s.state)
    && RingInv(s.ring, s.chunkLog, s.generation, cfg.budget)
    && OriginInv(s.chunkLog, s.spawns)
    && IssuedInv(s.issued, s.chunkLog)
    && ClientsInv(s.clients, s.generation, ChunkHistory(s.chunkLog, s.generation), s.nextToken)
    && TagsInv(s.logTags, s.generation)
    && StdinInv(s.stdin)
    && DiskInv(s.disk, cfg.limits)
    && WarmInv(s.warm, History(s.disk), cfg.limits.tailBytes)
  }

  // ---------------------------------------------------------------- helpers

  /** `ApplyPause` restores the flow rule after any change of the client map. */
  lemma ApplyPauseKeeps(cfg: Config, s: Session)
    requires Inv(cfg, s.(clients := map[], outputPaused := false, ptyPaused := false))
    requires s.state == Running ==> s.outputPaused == s.ptyPaused
    requires s.state == Spawning ==> s.clients == map[]
    requires ClientsInv(s.clients, s.generation, ChunkHistory(s.chunkLog, s.generation), s.nextToken)
    ensures Inv(cfg, ApplyPause(s))
  {
    hide DiskInv, RingInv, WarmInv, SpawnInv, OriginInv, IssuedInv, TagsInv, StdinInv, ClientsInv;
  }

  lemma SpawnProcessKeeps(cfg: Config, s: Session, pid: nat)
    requires Inv(cfg, s) && s.state == Spawning
    ensures Inv(cfg, SpawnProcess(s, pid)) && SpawnProcess(s, pid).state == Running
  {
    hide DiskInv, RingInv, WarmInv, IssuedInv, TagsInv, StdinInv, ClientsInv, EncodeEach, Subsequence;
  }

  lemma BumpGenerationKeeps(cfg: Config, s: Session)
    requires Inv(cfg, s) && s.state == Ended
    ensures Inv(cfg, BumpGeneration(s).(process := None)) && BumpGeneration(s).process == None
  {
    hide DiskInv, WarmInv, StdinInv, EncodeEach, Subsequence;
    var next := s.generation + 1;
    assert next !in s.chunkLog;
    assert RingMatches(EmptyRing(next), [], cfg.budget) by {
      var none: seq<Bytes> := [];
      assert none[0..] == [] && Numbered(none, 0) == [];
    }
  }

  lemma WarmExtends(warm: Option<Warm>, h: Bytes, data: Bytes, tailBytes: nat)
    requires WarmInv(warm, h, tailBytes) && warm.Some?
    ensures WarmInv(Some(Warm(warm.value.dims, warm.value.input + data)), h + data, tailBytes)
  {
    var i := warm.value.input;
    assert i + data == (h + data)[|h + data| - |i + data|..];
  }

  lemma RecordKeeps(cfg: Config, s: Session, text: string)
    requires Inv(cfg, s)
    ensures Inv(cfg, Record(cfg, s, s.generation, text))
    ensures History(Record(cfg, s, s.generation, text).disk) == History(s.disk) + Encode(text)
  {
    hide DiskInv, RingInv, SpawnInv, OriginInv, IssuedInv, StdinInv, ClientsInv, WarmInv, Encode, DiskAppend, History;
    AppendExtendsHistory(s.disk, Encode(text), cfg.limits);
    if s.warm.Some? {
      WarmExtends(s.warm, History(s.disk), Encode(text), cfg.limits.tailBytes);
    } else {
      NoWarm(History(Record(cfg, s, s.generation, text).disk), cfg.limits.tailBytes);
    }
  }

  lemma NoWarm(h: Bytes, tailBytes: nat)
    ensures WarmInv(None, h, tailBytes)
  {
  }

  lemma FlushLogKeeps(cfg: Config, s: Session)
    requires Inv(cfg, s)
    ensures Inv(cfg, FlushLog(cfg, s))
    ensures History(FlushLog(cfg, s).disk) == History(s.disk)
  {
    FlushKeepsHistory(s.disk, cfg.limits);
    hide RingInv, SpawnInv, OriginInv, IssuedInv, StdinInv, ClientsInv, WarmInv, TagsInv, DiskFlush, History;
  }

  lemma EnsureRunningKeeps(cfg: Config, s: Session, pid: nat, separator: string)
    requires Inv(cfg, s)
    ensures var r := EnsureRunning(cfg, s, pid, separator);
            r.Some? ==> Inv(cfg, r.value) && r.value.state == Running && r.value.attaching == s.attaching
  {
    hide Inv, Record;
    if s.state == Ended {
      RecordKeeps(cfg, s, separator);
      var t := Record(cfg, s, s.generation, separator);
      RecordKeepsLife(cfg, s, separator);
      BumpGenerationKeeps(cfg, t);
      SpawnProcessKeeps(cfg, BumpGeneration(t), pid);
    } else if s.state == Spawning {
      SpawnProcessKeeps(cfg, s, pid);
    }
  }

  lemma RecordKeepsLife(cfg: Config, s: Session, text: string)
    ensures Record(cfg, s, s.generation, text).state == s.state && Record(cfg, s, s.generation, text).attaching == s.attaching
  {
  }

  lemma RegisterKeeps(cfg: Config, s: Session, c: ClientId, client: Client)
    requires Inv(cfg, s) && s.state == Running
    requires ClientOk(client, s.generation, ChunkHistory(s.chunkLog, s.generation), s.nextToken)
    ensures Inv(cfg, Register(s, c, client))
  {
    hide DiskInv, RingInv, WarmInv, SpawnInv, OriginInv, IssuedInv, TagsInv, StdinInv, ClientOk;
    ApplyPauseKeeps(cfg, s.(clients := s.clients[c := client]));
  }

  lemma RegisterChunkKeeps(cfg: Config, s: Session, c: ClientId, frames: seq<Frame>)
    requires Inv(cfg, s) && s.state == Running
    requires ClientOk(ChunkClient(s.nextToken, false, frames), s.generation, ChunkHistory(s.chunkLog, s.generation),
                      s.nextToken + 1)
    ensures Inv(cfg, RegisterChunk(s, c, frames))
  {
    hide DiskInv, RingInv, WarmInv, SpawnInv, OriginInv, IssuedInv, TagsInv, StdinInv;
    RegisterKeeps(cfg, s.(nextToken := s.nextToken + 1), c, ChunkClient(s.nextToken, false, frames));
  }

  /** A rebuilt terminal starts from the log's tail, which is a suffix of the history. */
  lemma BuildReplayKeeps(cfg: Config, s: Session, dims: Dims)
    requires Inv(cfg, s)
    ensures WarmInv(BuildReplay(s.warm, ReadTail(s.disk, cfg.limits), dims), History(s.disk), cfg.limits.tailBytes)
  {
    ReadTailIsTailOfHistory(s.disk, cfg.limits);
    hide ReadTail, History, DiskInv, RingInv, SpawnInv, OriginInv, IssuedInv, TagsInv, StdinInv, ClientsInv;
  }

  lemma SuspendKeeps(cfg: Config, s: Session, c: ClientId, dims: Dims)
    requires Inv(cfg, s) && s.state == Running
    ensures Inv(cfg, Suspend(cfg, s, c, dims))
  {
    BuildReplayKeeps(cfg, s, dims);
    FlushLogKeeps(cfg, s);
    hide ReadTail, History, DiskInv, RingInv, SpawnInv, OriginInv, IssuedInv, TagsInv, StdinInv, ClientsInv, WarmInv,
         BuildReplay, DiskFlush;
  }

  lemma SuspendUnlessEmptyKeeps(cfg: Config, s: Session, c: ClientId, dims: Dims)
    requires Inv(cfg, s) && s.state == Running
    ensures Inv(cfg, SuspendUnlessEmpty(cfg, s, c, dims))
  {
    hide Inv, FlushLog, RegisterChunk, Suspend;
    SuspendKeeps(cfg, s, c, dims);
    FlushLogKeeps(cfg, s);
    FlushLogFields(cfg, s);
    RegisterChunkKeeps(cfg, FlushLog(cfg, s), c, []);
  }

  lemma FlushLogFields(cfg: Config, s: Session)
    ensures FlushLog(cfg, s).state == s.state
  {
  }

  /** The delta a reconnecting client is given is exactly the history after its cursor. */
  lemma DeltaFrames(cfg: Config, s: Session, cursor: LastSeen)
    requires Inv(cfg, s) && ReadSince(s.ring, Some(cursor)).Delta?
    ensures cursor.generation == s.generation
    ensures cursor.seqNo + 1 <= |ChunkHistory(s.chunkLog, s.generation)|
    ensures TagAll(s.generation, ReadSince(s.ring, Some(cursor)).chunks)
            == Frames(s.generation, ChunkHistory(s.chunkLog, s.generation), cursor.seqNo + 1)
  {
    hide DiskInv, WarmInv, SpawnInv, OriginInv, IssuedInv, TagsInv, StdinInv, ClientsInv, LifeInv, FlowInv;
    ReadSinceDecides(s.ring.value, ChunkHistory(s.chunkLog, s.generation), cfg.budget, cursor);
  }

  lemma AttachChunkKeeps(cfg: Config, s: Session, c: ClientId, dims: Dims, pid: nat, separator: string,
                         caps: Capabilities)
    requires Inv(cfg, s)
    ensures Inv(cfg, AttachChunk(cfg, s, c, dims, pid, separator, caps))
  {
    hide Inv, EnsureRunning, RegisterChunk, Suspend, SuspendUnlessEmpty, ReadSince, TagAll, ParseLastSeen;
    EnsureRunningKeeps(cfg, s, pid, separator);
    var running, lastSeen := EnsureRunning(cfg, s, pid, separator), ParseLastSeen(caps.lastSeen);
    if s.attaching.None? && running.Some? {
      var t := running.value;
      SuspendKeeps(cfg, t, c, dims);
      SuspendUnlessEmptyKeeps(cfg, t, c, dims);
      RegisterChunkKeeps(cfg, t, c, []);
      if ReadSince(t.ring, lastSeen).Delta? {
        assert lastSeen.Some? by { NoCursorNoDelta(t.ring); }
        DeltaFrames(cfg, t, lastSeen.value);
        RegisterChunkKeeps(cfg, t, c, TagAll(t.generation, ReadSince(t.ring, lastSeen).chunks));
      }
    }
  }

  lemma NoCursorNoDelta(ring: Option<Ring>)
    ensures !ReadSince(ring, None).Delta?
  {
  }

  lemma AttachStringKeeps(cfg: Config, s: Session, c: ClientId, pid: nat, separator: string, callerToken: Option<nat>)
    requires Inv(cfg, s)
    ensures Inv(cfg, AttachString(cfg, s, c, pid, separator, callerToken))
  {
    hide Inv, EnsureRunning, Register, FlushLog;
    EnsureRunningKeeps(cfg, s, pid, separator);
    var running := EnsureRunning(cfg, s, pid, separator);
    if s.attaching.None? && running.Some? {
      var t := running.value;
      var token := if callerToken.Some? then callerToken.value else t.nextToken;
      var minted := t.(nextToken := if callerToken.Some? then t.nextToken else t.nextToken + 1);
      MintKeeps(cfg, t, minted.nextToken);
      RegisterKeeps(cfg, minted, c, StringClient(token, false, []));
      FlushLogKeeps(cfg, Register(minted, c, StringClient(token, false, [])));
    }
  }

  lemma MintKeeps(cfg: Config, s: Session, nextToken: nat)
    requires Inv(cfg, s) && nextToken >= s.nextToken
    ensures Inv(cfg, s.(nextToken := nextToken))
  {
    hide DiskInv, RingInv, WarmInv, SpawnInv, OriginInv, IssuedInv, TagsInv, StdinInv;
  }

  lemma FinishAttachKeeps(cfg: Config, s: Session)
    requires Inv(cfg, s)
    ensures Inv(cfg, FinishAttach(s))
  {
    hide DiskInv, RingInv, WarmInv, SpawnInv, OriginInv, IssuedInv, TagsInv, StdinInv, ClientsInv, ShouldPause;
    if s.attaching.Some? && !ReplayOpen(s) {
      RegisterChunkKeeps(cfg, s.(attaching := None, replay := None), s.attaching.value, []);
    }
  }

  lemma FirstWriteDoneKeeps(cfg: Config, s: Session)
    requires Inv(cfg, s)
    ensures Inv(cfg, FirstWriteDone(s))
  {
    hide DiskInv, RingInv, WarmInv, SpawnInv, OriginInv, IssuedInv, TagsInv, StdinInv, ClientsInv, ShouldPause;
  }

  lemma DetachKeeps(cfg: Config, s: Session, c: ClientId, expectedToken: Option<nat>)
    requires Inv(cfg, s)
    ensures Inv(cfg, Detach(s, c, expectedToken))
  {
    hide DiskInv, RingInv, WarmInv, SpawnInv, OriginInv, IssuedInv, TagsInv, StdinInv, ClientOk;
    ApplyPauseKeeps(cfg, s.(clients := s.clients - {c}));
  }

  lemma SetFlowKeeps(cfg: Config, s: Session, c: ClientId, paused: bool)
    requires Inv(cfg, s)
    ensures Inv(cfg, SetFlow(s, c, paused))
  {
    hide DiskInv, RingInv, WarmInv, SpawnInv, OriginInv, IssuedInv, TagsInv, StdinInv;
    if s.process.Some? && c in s.clients {
      ApplyPauseKeeps(cfg, s.(clients := s.clients[c := s.clients[c].(flowPaused := paused)]));
    }
  }

  lemma EmitKeeps(p: Spawn, text: string)
    requires SpawnOk(p)
    ensures SpawnOk(Spawn(p.pendingData + text, true, p.emitted + text, p.batches))
  {
    assert Joined(p.batches) + (p.pendingData + text) == Joined(p.batches) + p.pendingData + text;
  }

  lemma DataKeeps(cfg: Config, s: Session, g: nat, text: string)
    requires Inv(cfg, s)
    ensures Inv(cfg, Data(s, g, text))
  {
    hide DiskInv, RingInv, WarmInv, IssuedInv, TagsInv, StdinInv, ClientsInv, SpawnOk, Subsequence;
    if g in s.spawns {
      EmitKeeps(s.spawns[g], text);
    }
  }

  lemma TakeKeepsSpawn(p: Spawn)
    requires SpawnOk(p)
    ensures SpawnOk(Spawn("", false, p.emitted, p.batches + [p.pendingData]))
    ensures EncodeEach(p.batches + [p.pendingData]) == EncodeEach(p.batches) + [Encode(p.pendingData)]
  {
    var b := p.batches + [p.pendingData];
    assert b[..|b| - 1] == p.batches;
  }

  lemma SubsequenceGrows(a: seq<Bytes>, b: seq<Bytes>, x: Bytes)
    requires Subsequence(a, b)
    ensures Subsequence(a, b + [x]) && Subsequence(a + [x], b + [x])
  {
    assert (a + [x])[..|a + [x]| - 1] == a && (b + [x])[..|b + [x]| - 1] == b;
  }

  /** After the batch is taken, the history may or may not grow by it. */
  lemma TakeBatchKeeps(cfg: Config, s: Session, g: nat)
    requires Inv(cfg, s) && g in s.spawns
    ensures Inv(cfg, TakeBatch(s, g))
    ensures Subsequence(ChunkHistory(s.chunkLog, g) + [Encode(s.spawns[g].pendingData)],
                        EncodeEach(TakeBatch(s, g).spawns[g].batches))
  {
    hide DiskInv, RingInv, WarmInv, IssuedInv, TagsInv, StdinInv, ClientsInv, SpawnOk, EncodeEach, Subsequence;
    TakeKeepsSpawn(s.spawns[g]);
    var b := EncodeEach(s.spawns[g].batches);
    assert Subsequence(ChunkHistory(s.chunkLog, g), b) by {
      if g !in s.chunkLog { EmptySubsequence(b); }
    }
    SubsequenceGrows(ChunkHistory(s.chunkLog, g), b, Encode(s.spawns[g].pendingData));
  }

  lemma EmptySubsequence(b: seq<Bytes>)
    ensures Subsequence([], b)
  {
  }

  lemma DeliverKeeps(client: Client, g: nat, h: seq<Bytes>, data: Bytes, batch: string, nextToken: nat)
    requires ClientOk(client, g, h, nextToken)
    ensures ClientOk(Deliver(client, Some(Frame(g, |h|, data)), batch), g, h + [data], nextToken)
    ensures client.StringClient? ==> ClientOk(Deliver(client, None, batch), g, h, nextToken)
  {
  }

  lemma ShouldPauseSameFlags(a: map<ClientId, Client>, b: map<ClientId, Client>)
    requires a.Keys == b.Keys && forall c :: c in a ==> a[c].flowPaused == b[c].flowPaused
    ensures ShouldPause(a) == ShouldPause(b)
  {
    assert |a| == |a.Keys| && |b| == |b.Keys|;
  }

  lemma NumberedRing(cfg: Config, s: Session, data: Bytes)
    requires RingInv(s.ring, s.chunkLog, s.generation, cfg.budget)
    ensures var t := NumberBatch(cfg, s, s.generation, data);
            && RingInv(t.ring, t.chunkLog, t.generation, cfg.budget)
            && t.issued == s.issued + [(s.generation, |ChunkHistory(s.chunkLog, s.generation)|)]
  {
    var g, h := s.generation, ChunkHistory(s.chunkLog, s.generation);
    if s.ring.Some? {
      AppendKeepsRing(s.ring.value, h, data, cfg.budget);
    } else {
      var none: seq<Bytes> := [];
      assert none[0..] == [] && Numbered(none, 0) == [];
      AppendKeepsRing(EmptyRing(g), h, data, cfg.budget);
    }
  }

  lemma NumberedIssued(issued: seq<(nat, nat)>, chunkLog: map<nat, seq<Bytes>>, g: nat, data: Bytes)
    requires IssuedInv(issued, chunkLog)
    ensures IssuedInv(issued + [(g, |ChunkHistory(chunkLog, g)|)], chunkLog[g := ChunkHistory(chunkLog, g) + [data]])
  {
  }

  lemma BroadcastNumberedKeeps(cfg: Config, s: Session, batch: string)
    requires Inv(cfg, s) && s.generation in s.spawns && HasChunkClient(s.clients)
    requires Subsequence(ChunkHistory(s.chunkLog, s.generation) + [Encode(batch)], EncodeEach(s.spawns[s.generation].batches))
    ensures Inv(cfg, Broadcast(cfg, s, s.generation, batch))
  {
    hide DiskInv, RingInv, WarmInv, SpawnInv, IssuedInv, TagsInv, StdinInv, EncodeEach, Subsequence, RingAppend, Encode,
         ClientOk, Deliver, ShouldPause, DiskAppend, History;
    RecordKeeps(cfg, s, batch);
    var t, g, data := Record(cfg, s, s.generation, batch), s.generation, Encode(batch);
    var h := ChunkHistory(s.chunkLog, g);
    var u := NumberBatch(cfg, t, t.generation, data);
    var frame := Frame(g, |h|, data);
    NumberedRing(cfg, t, data);
    NumberedIssued(t.issued, t.chunkLog, g, data);
    forall c | c in s.clients
      ensures ClientOk(Deliver(s.clients[c], Some(frame), batch), g, h + [data], s.nextToken)
      ensures Deliver(s.clients[c], Some(frame), batch).flowPaused == s.clients[c].flowPaused
    {
      DeliverKeeps(s.clients[c], g, h, data, batch, s.nextToken);
      DeliverKeepsFlow(s.clients[c], Some(frame), batch);
    }
    var clients := map c | c in u.clients :: Deliver(u.clients[c], Some(frame), batch);
    ShouldPauseSameFlags(s.clients, clients);
    assert s.state != Spawning by { SpawnedIsNotSpawning(s.spawns, s.generation, s.state); }
  }

  lemma SpawnedIsNotSpawning(spawns: map<nat, Spawn>, generation: nat, state: RunState)
    requires SpawnInv(spawns, generation, state) && generation in spawns
    ensures state != Spawning
  {
  }

  lemma DeliverKeepsFlow(client: Client, frame: Option<Frame>, batch: string)
    ensures Deliver(client, frame, batch).flowPaused == client.flowPaused
    ensures Deliver(client, frame, batch).token == client.token
  {
  }

  lemma BroadcastPlainKeeps(cfg: Config, s: Session, batch: string)
    requires Inv(cfg, s) && s.generation in s.spawns && !HasChunkClient(s.clients)
    ensures Inv(cfg, Broadcast(cfg, s, s.generation, batch))
  {
    hide DiskInv, RingInv, WarmInv, SpawnInv, OriginInv, IssuedInv, TagsInv, StdinInv, Encode, ClientOk, Deliver,
         ShouldPause, DiskAppend, History;
    RecordKeeps(cfg, s, batch);
    var g, h := s.generation, ChunkHistory(s.chunkLog, s.generation);
    forall c | c in s.clients
      ensures ClientOk(Deliver(s.clients[c], None, batch), g, h, s.nextToken)
      ensures Deliver(s.clients[c], None, batch).flowPaused == s.clients[c].flowPaused
    {
      DeliverKeeps(s.clients[c], g, h, [], batch, s.nextToken);
      DeliverKeepsFlow(s.clients[c], None, batch);
    }
    ShouldPauseSameFlags(s.clients, map c | c in s.clients :: Deliver(s.clients[c], None, batch));
    assert s.state != Spawning by { SpawnedIsNotSpawning(s.spawns, s.generation, s.state); }
  }

  lemma FlushKeeps(cfg: Config, s: Session, g: nat)
    requires Inv(cfg, s)
    ensures Inv(cfg, Flush(cfg, s, g))
  {
    hide Inv, Broadcast, Subsequence, EncodeEach, Encode;
    if g in s.spawns && s.spawns[g].flushScheduled {
      TakeBatchKeeps(cfg, s, g);
      var t := TakeBatch(s, g);
      if g == s.generation {
        if HasChunkClient(t.clients) {
          BroadcastNumberedKeeps(cfg, t, s.spawns[g].pendingData);
        } else {
          BroadcastPlainKeeps(cfg, t, s.spawns[g].pendingData);
        }
      }
    }
  }

  lemma EndKeeps(cfg: Config, s: Session, reason: EndReason)
    requires Inv(cfg, s) && s.attaching.None?
    ensures Inv(cfg, End(s, reason))
  {
    hide DiskInv, RingInv, WarmInv, OriginInv, IssuedInv, TagsInv, StdinInv, ClientsInv, SpawnOk;
  }

  lemma WriteKeeps(cfg: Config, s: Session, data: string, tag: Option<nat>)
    requires Inv(cfg, s)
    ensures Inv(cfg, Write(s, data, tag))
  {
    hide DiskInv, RingInv, WarmInv, SpawnInv, OriginInv, IssuedInv, TagsInv, ClientsInv;
  }

  lemma DropWarmKeeps(cfg: Config, s: Session)
    requires Inv(cfg, s)
    ensures Inv(cfg, s.(warm := None))
  {
    hide DiskInv, RingInv, SpawnInv, OriginInv, IssuedInv, TagsInv, StdinInv, ClientsInv;
  }

  // ---------------------------------------------------------------- every step, every run

  lemma StepKeepsInv(cfg: Config, s: Session, e: Event)
    requires Inv(cfg, s)
    ensures Inv(cfg, Step(cfg, s, e))
  {
    hide Inv, AttachString, AttachChunk, FirstWriteDone, FinishAttach, Detach, SetFlow, Data, Flush, FlushLog, Write, End,
         BumpGeneration;
    match e
    case EvAttachString(c, pid, separator, callerToken) => AttachStringKeeps(cfg, s, c, pid, separator, callerToken);
    case EvAttachChunk(c, dims, pid, separator, caps) => AttachChunkKeeps(cfg, s, c, dims, pid, separator, caps);
    case EvFirstWriteDone => FirstWriteDoneKeeps(cfg, s);
    case EvFinishAttach => FinishAttachKeeps(cfg, s);
    case EvDetach(c, expectedToken) => DetachKeeps(cfg, s, c, expectedToken);
    case EvSetFlow(c, paused) => SetFlowKeeps(cfg, s, c, paused);
    case EvData(g, text) => DataKeeps(cfg, s, g, text);
    case EvFlush(g) => FlushKeeps(cfg, s, g);
    case EvExit(g, signal, exitCode) =>
      if s.attaching.None? { EndKeeps(cfg, s, DeriveEndReason(signal, exitCode)); }
    case EvRestart => if s.state == Ended { BumpGenerationKeeps(cfg, s); }
    case EvShutdown(reason) => if s.attaching.None? { EndKeeps(cfg, s, reason); }
    case EvWrite(data, tag) => WriteKeeps(cfg, s, data, tag);
    case EvLogTimer => LogTimerKeeps(cfg, s);
    case EvLogFlush => FlushLogKeeps(cfg, s);
    case EvCacheDrop => DropWarmKeeps(cfg, s);
    case EvOtherSessionMints => MintKeeps(cfg, s, s.nextToken + 1);
  }

  lemma LogTimerKeeps(cfg: Config, s: Session)
    requires Inv(cfg, s)
    ensures Inv(cfg, s.(disk := DiskStep(s.disk, TimerFires, cfg.limits)))
  {
    hide Inv;
    FlushLogKeeps(cfg, s);
    assert s.(disk := s.disk) == s;
  }

  /** The session invariant holds in every reachable state, whatever the interleaving. */
  lemma {:induction false} RunKeepsInv(cfg: Config, s: Session, es: seq<Event>)
    requires Inv(cfg, s)
    ensures Inv(cfg, Run(cfg, s, es))
    decreases |es|
  {
    hide Inv, Step;
    if es != [] {
      StepKeepsInv(cfg, s, es[0]);
      RunKeepsInv(cfg, Step(cfg, s, es[0]), es[1..]);
    }
  }

  /** Both ways a session comes into being satisfy it, for any log left by an earlier server. */
  lemma InitialInv(cfg: Config, command: Command, disk: Disk, generation: nat, recorded: Option<EndReason>,
                   isDaemon: bool, wasGraceful: bool)
    requires DiskInv(disk, cfg.limits)
    ensures Inv(cfg, Created(command, disk))
    ensures Inv(cfg, Loaded(command, disk, generation, recorded, isDaemon, wasGraceful))
  {
    hide DiskInv;
  }
}
