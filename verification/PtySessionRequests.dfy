/** When a request to a session has its effect, and when it has none. */
module PtySessionRequests {
  import opened Wrappers
  import opened Utf8
  import opened ScrollbackSpec
  import opened SessionPolicy
  import opened PtySession
  import opened PtySessionInvariant
  import opened PtySessionEffect
  import opened PtySessionTheorems

  /** Input for the running process reaches it: untagged, tagged zero or tagged with its generation. */
  lemma CurrentInputIsDelivered(cfg: Config, s: Session, data: string, tag: Option<nat>)
    requires Inv(cfg, s)
    ensures Step(cfg, s, EvWrite(data, tag)).stdin ==
            if s.state == Running && (tag.None? || tag.value == 0 || tag.value == s.generation)
            then s.stdin + [StdinWrite(s.generation, tag, data)] else s.stdin
  {
    hide DiskInv, RingInv, WarmInv, SpawnInv, OriginInv, IssuedInv, ClientsInv, TagsInv, StdinInv, FlowInv;
  }

  /** A generation is ended exactly by its own process's exit or by a shutdown, when they get the
      mutex; the reason is theirs, and nobody is detached. */
  lemma EndsExactlyWhen(cfg: Config, s: Session, e: Event)
    requires Inv(cfg, s) && s.state != Ended
    ensures var t := Step(cfg, s, e);
            && (t.state == Ended <==>
                  s.attaching.None? && (e.EvShutdown? || (e.EvExit? && e.g == s.generation && s.state == Running)))
            && (t.state == Ended ==>
                  && t.endReason == Some(if e.EvShutdown? then e.reason
                                         else if e.signal.Some? && e.signal.value != 0 then Signal(e.signal.value)
                                         else Exit(e.exitCode))
                  && t.generation == s.generation && t.clients == s.clients && t.process.None?)
  {
    hide DiskInv, RingInv, WarmInv, OriginInv, IssuedInv, ClientsInv, TagsInv, StdinInv, FlowInv, SpawnOk;
    if e.EvExit? || e.EvShutdown? {
    } else {
      StepEffect(cfg, s, e);
      hide Step;
    }
  }

  /** A detach takes its client off exactly if it is untagged or carries the attach's own token, and
      it never touches another client. */
  lemma DetachesExactlyWhen(cfg: Config, s: Session, c: ClientId, expectedToken: Option<nat>)
    ensures var t := Step(cfg, s, EvDetach(c, expectedToken));
            t.clients == if c in s.clients && (expectedToken.None? || expectedToken.value == s.clients[c].token)
                         then s.clients - {c} else s.clients
  {
    hide ShouldPause;
  }

  /** A running process is paused exactly when the client that asks is alone and asks for it; without a
      process, or from a client that is not attached, the request is not heard. */
  lemma PausesExactlyWhen(cfg: Config, s: Session, c: ClientId, paused: bool)
    requires Inv(cfg, s)
    ensures var t := Step(cfg, s, EvSetFlow(c, paused));
            && (s.state != Running || c !in s.clients ==> t == s)
            && (s.state == Running && c in s.clients ==>
                  && t.clients == s.clients[c := s.clients[c].(flowPaused := paused)]
                  && (t.ptyPaused <==> s.clients.Keys == {c} && paused))
  {
    hide DiskInv, RingInv, WarmInv, SpawnInv, OriginInv, IssuedInv, ClientsInv, TagsInv, StdinInv, ShouldPause;
    if s.state == Running && c in s.clients {
      var clients := s.clients[c := s.clients[c].(flowPaused := paused)];
      assert clients.Keys == s.clients.Keys;
      OneClientPauses(clients, c);
    }
  }

  lemma OneClientPauses(clients: map<ClientId, Client>, c: ClientId)
    requires c in clients
    ensures ShouldPause(clients) <==> clients.Keys == {c} && clients[c].flowPaused
  {
    if |clients| == 1 {
      OnlyKey(clients, c);
    }
  }

  lemma OnlyKey(clients: map<ClientId, Client>, c: ClientId)
    requires c in clients && |clients| == 1
    ensures clients.Keys == {c}
  {
    var others := clients.Keys - {c};
    assert clients.Keys == others + {c};
    assert |others| == 0;
  }

  predicate Refuses(s: Session) {
    s.state == Ended && MustNotResume(s)
  }

  lemma EnsureRunningUnlessRefused(cfg: Config, s: Session, pid: nat, separator: string)
    ensures EnsureRunning(cfg, s, pid, separator).None? <==> Refuses(s)
    ensures EnsureRunning(cfg, s, pid, separator).Some? ==> EnsureRunning(cfg, s, pid, separator).value.state == Running
  {
    PolicyIsExact(s);
    hide IsAutoResumable, Record, BumpGeneration, MustNotResume, MayResume;
  }

  /** A string attach is refused, without any effect, exactly for an ended session that may not be
      resumed; otherwise the session runs and the client is attached under the caller's token or a
      fresh one. */
  lemma StringAttachServesUnlessRefused(cfg: Config, s: Session, c: ClientId, pid: nat, separator: string,
                                        callerToken: Option<nat>)
    requires s.attaching.None?
    ensures var t := AttachString(cfg, s, c, pid, separator, callerToken);
            && (Refuses(s) ==> t == s)
            && (!Refuses(s) ==>
                  && t.state == Running && t.attaching.None?
                  && t.nextToken == (if callerToken.Some? then s.nextToken else s.nextToken + 1)
                  && t.clients == (if s.state == Ended then map[] else s.clients)[c :=
                       StringClient(if callerToken.Some? then callerToken.value else s.nextToken, false, [])])
  {
    EnsureRunningUnlessRefused(cfg, s, pid, separator);
    EnsureRunningMakesRunning(cfg, s, pid, separator);
    hide Refuses, EnsureRunning, ShouldPause, DiskFlush;
  }

  /** The log holds no ring for the session (since it was opened nothing was numbered and no generation
      began), the ring is of another generation, or part of what the cursor misses was evicted. */
  predicate NeedsFullReplay(s: Session, cursor: LastSeen) {
    || s.ring.None? || cursor.generation != s.ring.value.generation
    || cursor.seqNo + 1 < s.ring.value.nextSeq - |s.ring.value.chunks|
  }

  /** A chunk attach with a cursor to a running session awaits a full replay exactly when the cursor
      cannot be served from the ring; otherwise the client is attached at once. */
  lemma FullReplayExactlyWhen(cfg: Config, s: Session, c: ClientId, dims: Dims, pid: nat, separator: string,
                              caps: Capabilities, cursor: LastSeen)
    requires Inv(cfg, s) && s.attaching.None? && s.state == Running
    requires caps.binary && caps.chunkedReplay && ParseLastSeen(caps.lastSeen) == Some(cursor)
    ensures var t := AttachChunk(cfg, s, c, dims, pid, separator, caps);
            && (NeedsFullReplay(s, cursor) ==> t.attaching == Some(c) && t.clients == s.clients)
            && (!NeedsFullReplay(s, cursor) ==> t.attaching.None? && Attached(t.clients, c, s.nextToken))
  {
    hide DiskInv, WarmInv, SpawnInv, OriginInv, IssuedInv, TagsInv, StdinInv, ClientsInv, FlowInv, LifeInv, RegisterChunk,
         SuspendUnlessEmpty, ReadSince, TagAll, ParseLastSeen, BuildReplay, ReadTail, DiskFlush;
    CursorDecides(cfg, s, cursor);
    var decision := ReadSince(s.ring, Some(cursor));
    Registered(s, c, if decision.Delta? then TagAll(s.generation, decision.chunks) else []);
  }

  lemma CursorDecides(cfg: Config, s: Session, cursor: LastSeen)
    requires Inv(cfg, s)
    ensures ReadSince(s.ring, Some(cursor)).Full? <==> NeedsFullReplay(s, cursor)
  {
    hide DiskInv, WarmInv, SpawnInv, OriginInv, IssuedInv, TagsInv, StdinInv, ClientsInv, FlowInv, LifeInv;
    if s.ring.Some? {
      ReadSinceDecides(s.ring.value, CurrentHistory(s), cfg.budget, cursor);
    }
  }

  lemma Registered(s: Session, c: ClientId, frames: seq<Frame>)
    ensures var t := RegisterChunk(s, c, frames);
            t.attaching == s.attaching && Attached(t.clients, c, s.nextToken) && t.clients[c].frames == frames
  {
    hide ShouldPause;
  }

  // ---------------------------------------------------------------- lives

  /** A new session waits in its first generation for its first attach, with nothing in memory; a reloaded
      one has ended in the generation it had. Both have the log they are given. */
  lemma SessionsBegin(command: Command, disk: Disk, generation: nat, recorded: Option<EndReason>, isDaemon: bool,
                      wasGraceful: bool)
    ensures var s, t := Created(command, disk), Loaded(command, disk, generation, recorded, isDaemon, wasGraceful);
            && s.command == command && s.state == Spawning && s.endReason == None
            && s.generation == s.infoGeneration == 1 && s.process == s.pid == None && s.clients == map[]
            && !s.outputPaused && !s.ptyPaused && s.nextToken == 1 && s.attaching == None && s.replay == None
            && s.spawns == map[] && s.disk == disk && s.ring == None && s.warm == None && s.chunkLog == map[]
            && s.issued == [] && s.logTags == [] && s.stdin == []
            && t == s.(state := Ended, endReason := t.endReason, generation := generation, infoGeneration := generation)
  {
  }

  /** A restart is heard exactly by an ended session whose mutex is free: the next generation then waits,
      without process, reason or clients, for its first attach; the log and the warm terminal stay. */
  lemma RestartsExactlyWhen(cfg: Config, s: Session)
    ensures Step(cfg, s, EvRestart) ==
              if s.attaching.Some? || s.state != Ended then s
              else s.(state := Spawning, generation := s.generation + 1, infoGeneration := s.generation + 1,
                      ring := Some(Ring(s.generation + 1, 0, [], 0)), process := None, pid := None, endReason := None,
                      clients := map[])
  {
  }

  /** The first attach of a session that waits for its process spawns it. */
  lemma FirstAttachSpawns(cfg: Config, s: Session, e: Event)
    requires s.state == Spawning && s.attaching.None? && (e.EvAttachString? || e.EvAttachChunk?)
    ensures var t := Step(cfg, s, e);
            && t.state == Running && t.generation == s.generation
            && t.process == Some(s.generation) && t.pid == Some(e.pid)
            && t.spawns == s.spawns[s.generation := Spawn("", false, "", [])]
  {
    assert EnsureRunning(cfg, s, e.pid, e.separator) == Some(SpawnProcess(s, e.pid));
    hide EnsureRunning;
    AttachKeepsLife(cfg, s, e);
  }

  /** A reloaded session is ended with its recorded reason; without one, the reason tells who wrote the
      record and whether it shut down in order. */
  lemma ReloadedReason(command: Command, disk: Disk, generation: nat, recorded: Option<EndReason>, isDaemon: bool,
                       wasGraceful: bool)
    ensures var s := Loaded(command, disk, generation, recorded, isDaemon, wasGraceful);
            && s.state == Ended && s.generation == generation && s.clients == map[] && s.spawns == map[]
            && s.endReason == (if recorded.Some? then recorded
                               else if isDaemon && wasGraceful then Some(DaemonGraceful)
                               else if isDaemon then Some(DaemonCrash)
                               else if wasGraceful then Some(ServerGraceful)
                               else Some(ServerCrash))
  {
  }

  // ---------------------------------------------------------------- chunk attaches

  /** The replay owed to a running session's client: none without the binary protocol; by the cursor if
      it has one and may be served chunks; and otherwise the tail of the log, if there is any. */
  predicate MustWait(cfg: Config, s: Session, caps: Capabilities) {
    caps.binary &&
    if caps.chunkedReplay && ParseLastSeen(caps.lastSeen).Some?
    then NeedsFullReplay(s, ParseLastSeen(caps.lastSeen).value)
    else ReadTail(s.disk, cfg.limits) != []
  }

  /** A chunk attach to a running session waits exactly if it must; otherwise the client is attached at
      once, under a fresh token and unpaused, with the chunks after its cursor if it has one and may be
      served chunks, and with none if not. */
  lemma ChunkAttachServes(cfg: Config, s: Session, c: ClientId, dims: Dims, pid: nat, separator: string, caps: Capabilities)
    requires Inv(cfg, s) && s.attaching.None? && s.state == Running
    ensures var t := AttachChunk(cfg, s, c, dims, pid, separator, caps);
            var cursor := ParseLastSeen(caps.lastSeen);
            && (MustWait(cfg, s, caps) ==>
                  t.attaching == Some(c) && t.clients == s.clients && t.nextToken == s.nextToken)
            && (!MustWait(cfg, s, caps) ==>
                  && t.attaching.None?
                  && t.nextToken == s.nextToken + 1
                  && t.clients == s.clients[c := ChunkClient(s.nextToken, false,
                       if caps.binary && caps.chunkedReplay && cursor.Some? && cursor.value.seqNo < |CurrentHistory(s)|
                       then Frames(s.generation, CurrentHistory(s), cursor.value.seqNo + 1) else [])])
  {
    hide Inv, RegisterChunk, ReadSince, TagAll, ParseLastSeen, ReadTail, DiskFlush, BuildReplay, OpenReplay, Frames,
         NeedsFullReplay;
    var cursor := ParseLastSeen(caps.lastSeen);
    NoCursorNoReplay(s.ring);
    RegisteredClients(s, c, []);
    RegisteredClients(FlushLog(cfg, s), c, []);
    if caps.binary && caps.chunkedReplay && cursor.Some? {
      CursorDecides(cfg, s, cursor.value);
      var decision := ReadSince(s.ring, cursor);
      if !NeedsFullReplay(s, cursor.value) {
        CursorServes(cfg, s, cursor.value);
      }
      if decision.Delta? {
        RegisteredClients(s, c, TagAll(s.generation, decision.chunks));
      }
    }
  }

  lemma NoCursorNoReplay(ring: Option<Ring>)
    ensures ReadSince(ring, None) == NoReplay
  {
  }

  /** What the log answers to a cursor that can be served. */
  lemma CursorServes(cfg: Config, s: Session, cursor: LastSeen)
    requires Inv(cfg, s) && !NeedsFullReplay(s, cursor)
    ensures var h, decision := CurrentHistory(s), ReadSince(s.ring, Some(cursor));
            && !decision.Full?
            && (if cursor.seqNo < |h| then
                  (if decision.Delta? then TagAll(s.generation, decision.chunks) else []) ==
                  Frames(s.generation, h, cursor.seqNo + 1)
                else decision.NoReplay?)
  {
    CursorDecides(cfg, s, cursor);
    if ReadSince(s.ring, Some(cursor)).Delta? {
      DeltaFrames(cfg, s, cursor);
      DeltaIsBehind(cfg, s, cursor);
    } else {
      NothingNewer(cfg, s, cursor);
    }
    hide Inv, NeedsFullReplay, ReadSince, TagAll;
  }

  lemma DeltaIsBehind(cfg: Config, s: Session, cursor: LastSeen)
    requires Inv(cfg, s) && ReadSince(s.ring, Some(cursor)).Delta?
    ensures cursor.seqNo < |CurrentHistory(s)|
  {
    hide DiskInv, WarmInv, SpawnInv, OriginInv, IssuedInv, TagsInv, StdinInv, ClientsInv, FlowInv, LifeInv;
    ReadSinceDecides(s.ring.value, CurrentHistory(s), cfg.budget, cursor);
  }

  lemma NothingNewer(cfg: Config, s: Session, cursor: LastSeen)
    requires Inv(cfg, s) && ReadSince(s.ring, Some(cursor)).NoReplay?
    ensures cursor.seqNo < |CurrentHistory(s)| ==>
              cursor.seqNo + 1 == |CurrentHistory(s)| && Frames(s.generation, CurrentHistory(s), cursor.seqNo + 1) == []
  {
    hide DiskInv, WarmInv, SpawnInv, OriginInv, IssuedInv, TagsInv, StdinInv, ClientsInv, FlowInv, LifeInv;
    if s.ring.Some? {
      ReadSinceDecides(s.ring.value, CurrentHistory(s), cfg.budget, cursor);
    }
  }

  lemma RegisteredClients(s: Session, c: ClientId, frames: seq<Frame>)
    ensures var t := RegisterChunk(s, c, frames);
            t.attaching == s.attaching && t.nextToken == s.nextToken + 1 &&
            t.clients == s.clients[c := ChunkClient(s.nextToken, false, frames)]
  {
    hide ShouldPause;
  }

  /** To a session that is not running an attach is the attach to the running session it becomes; one
      that may not be resumed refuses without effect. */
  lemma ChunkAttachMakesRunning(cfg: Config, s: Session, c: ClientId, dims: Dims, pid: nat, separator: string,
                                caps: Capabilities)
    requires Inv(cfg, s) && s.attaching.None?
    ensures Refuses(s) ==> AttachChunk(cfg, s, c, dims, pid, separator, caps) == s
    ensures !Refuses(s) ==>
              && EnsureRunning(cfg, s, pid, separator).Some?
              && var r := EnsureRunning(cfg, s, pid, separator).value;
                 && Inv(cfg, r) && r.attaching.None? && r.state == Running
                 && AttachChunk(cfg, s, c, dims, pid, separator, caps) == AttachChunk(cfg, r, c, dims, pid, separator, caps)
  {
    EnsureRunningUnlessRefused(cfg, s, pid, separator);
    EnsureRunningKeeps(cfg, s, pid, separator);
    if !Refuses(s) {
      RunningStays(cfg, EnsureRunning(cfg, s, pid, separator).value, pid, separator);
    }
    hide EnsureRunning, Inv, Refuses, RegisterChunk, Suspend, SuspendUnlessEmpty, ReadSince, ParseLastSeen, TagAll;
  }

  lemma RunningStays(cfg: Config, r: Session, pid: nat, separator: string)
    requires r.state == Running
    ensures EnsureRunning(cfg, r, pid, separator) == Some(r)
  {
  }

  /** The waiting client is attached when its replay is done and not before, unpaused, under the next token
      and with no chunks, and the mutex is free again. */
  lemma FinishesExactlyWhen(cfg: Config, s: Session)
    ensures var t := Step(cfg, s, EvFinishAttach);
            && (s.attaching.None? || ReplayOpen(s) ==> t == s)
            && (s.attaching.Some? && !ReplayOpen(s) ==>
                  && t.attaching.None? && t.replay.None? && t.nextToken == s.nextToken + 1
                  && t.clients == s.clients[s.attaching.value := ChunkClient(s.nextToken, false, [])])
  {
    hide RegisterChunk;
    if s.attaching.Some? {
      RegisteredClients(s.(attaching := None, replay := None), s.attaching.value, []);
      RegisterTouchesOnly(s.(attaching := None, replay := None), s.attaching.value);
    }
  }

  /** What a replay is read from: a warm terminal of the asked size as it stands, or else a fresh one of
      that size, which is given the log's tail and stays open until it has it. */
  lemma ReplayIsReadFrom(cfg: Config, s: Session, c: ClientId, dims: Dims)
    ensures var t, tail := Suspend(cfg, s, c, dims), ReadTail(s.disk, cfg.limits);
            && t.attaching == Some(c)
            && (s.warm.Some? && s.warm.value.dims == dims ==>
                  t.warm == s.warm && t.replay == Some(Replay(s.warm.value.input, false)))
            && ((s.warm.Some? ==> s.warm.value.dims != dims) && tail != [] ==>
                  t.warm == Some(Warm(dims, tail)) && t.replay == Some(Replay(tail, true)))
            && ((s.warm.Some? ==> s.warm.value.dims != dims) && tail == [] ==>
                  t.warm == None && t.replay == Some(Replay([], false)))
  {
    hide ReadTail, DiskFlush;
  }

  /** Output that is recorded joins a cached terminal, which stays cached, and a replay under way only
      while its terminal is still being written. */
  lemma FlushJoinsTheTerminal(cfg: Config, s: Session, g: nat)
    requires g == s.generation && g in s.spawns && s.spawns[g].flushScheduled
    ensures var t, data := Step(cfg, s, EvFlush(g)), Encode(s.spawns[g].pendingData);
            && (s.warm.None? ==> t.warm.None? && t.replay == s.replay)
            && (s.warm.Some? ==> t.warm == Some(Warm(s.warm.value.dims, s.warm.value.input + data)))
            && (s.warm.Some? && s.replay.Some? ==>
                  t.replay == Some(if s.replay.value.open then Replay(s.replay.value.input + data, true)
                                   else s.replay.value))
  {
    hide DiskAppend, Encode, RingAppend, Deliver;
  }

  /** After a flush of the log, on its timer or on demand, nothing waits in memory. */
  lemma LogTimerWritesEverything(cfg: Config, s: Session, e: Event)
    requires Inv(cfg, s) && (e.EvLogTimer? || e.EvLogFlush?)
    ensures var t := Step(cfg, s, e);
            t == s.(disk := t.disk) && t.disk.pending.chunks == [] && !t.disk.pending.timerArmed
            && t.disk.flushed == History(s.disk)
  {
    hide RingInv, WarmInv, SpawnInv, OriginInv, IssuedInv, TagsInv, StdinInv, ClientsInv, FlowInv, LifeInv;
    FlushKeepsHistory(s.disk, cfg.limits);
    assert Flat([]) == [];
  }

  // ---------------------------------------------------------------- and nothing else

  /** What a step that does not attach may touch. */
  predicate TouchesOnly(s: Session, e: Event, t: Session) {
    match e
    case EvFinishAttach =>
      t == s.(clients := t.clients, outputPaused := t.outputPaused, ptyPaused := t.ptyPaused,
              nextToken := t.nextToken, attaching := t.attaching, replay := t.replay)
    case EvDetach(_, _) => t == s.(clients := t.clients, outputPaused := t.outputPaused, ptyPaused := t.ptyPaused)
    case EvSetFlow(_, _) => t == s.(clients := t.clients, outputPaused := t.outputPaused, ptyPaused := t.ptyPaused)
    case EvData(_, _) => t == s.(spawns := t.spawns)
    case EvFlush(_) =>
      t == s.(clients := t.clients, spawns := t.spawns, disk := t.disk, ring := t.ring, warm := t.warm,
              replay := t.replay, chunkLog := t.chunkLog, issued := t.issued, logTags := t.logTags)
    case EvExit(_, _, _) => t == s.(state := t.state, endReason := t.endReason, process := t.process, pid := t.pid)
    case EvShutdown(_) => t == s.(state := t.state, endReason := t.endReason, process := t.process, pid := t.pid)
    case EvFirstWriteDone =>
      t == s.(replay := if s.replay.Some? then Some(Replay(s.replay.value.input, false)) else None)
    case EvWrite(_, _) => t == s.(stdin := t.stdin)
    case EvLogTimer => t == s.(disk := t.disk)
    case EvLogFlush => t == s.(disk := t.disk)
    case EvCacheDrop => t == s.(warm := None)
    case EvOtherSessionMints => t == s.(nextToken := s.nextToken + 1)
    case _ => true
  }

  lemma StepTouchesOnly(cfg: Config, s: Session, e: Event)
    ensures TouchesOnly(s, e, Step(cfg, s, e))
  {
    if e.EvFlush? {
      FlushTouchesOnly(cfg, s, e.g);
    } else if e.EvFinishAttach? || e.EvDetach? || e.EvSetFlow? {
      PauseTouchesOnly(cfg, s, e);
    } else if !e.EvAttachString? && !e.EvAttachChunk? {
      OtherTouchesOnly(cfg, s, e);
    }
    if e.EvFlush? || e.EvAttachString? || e.EvAttachChunk? {
      hide Flush, AttachString, AttachChunk;
    } else {
      hide Step, TouchesOnly;
    }
  }

  lemma OtherTouchesOnly(cfg: Config, s: Session, e: Event)
    requires !e.EvFlush? && !e.EvFinishAttach? && !e.EvDetach? && !e.EvSetFlow? && !e.EvAttachString? && !e.EvAttachChunk?
    ensures TouchesOnly(s, e, Step(cfg, s, e))
  {
    hide DiskFlush, DiskStep, Flush, AttachString, AttachChunk, FinishAttach, Detach, SetFlow, DeriveEndReason, EmptyRing;
  }

  lemma PauseTouchesOnly(cfg: Config, s: Session, e: Event)
    requires e.EvFinishAttach? || e.EvDetach? || e.EvSetFlow?
    ensures TouchesOnly(s, e, Step(cfg, s, e))
  {
    if e.EvFinishAttach? {
      FinishTouchesOnly(cfg, s);
      hide FinishAttach;
    } else {
      hide FinishAttach, ShouldPause;
    }
  }

  lemma FinishTouchesOnly(cfg: Config, s: Session)
    ensures TouchesOnly(s, EvFinishAttach, Step(cfg, s, EvFinishAttach))
  {
    hide RegisterChunk;
    if s.attaching.Some? {
      RegisterTouchesOnly(s.(attaching := None, replay := None), s.attaching.value);
    }
  }

  lemma RegisterTouchesOnly(s: Session, c: ClientId)
    ensures var t := RegisterChunk(s, c, []);
            t == s.(clients := t.clients, outputPaused := t.outputPaused, ptyPaused := t.ptyPaused, nextToken := t.nextToken)
  {
    hide ShouldPause;
  }

  lemma FlushTouchesOnly(cfg: Config, s: Session, g: nat)
    ensures TouchesOnly(s, EvFlush(g), Flush(cfg, s, g))
  {
    hide Broadcast;
    if g in s.spawns && s.spawns[g].flushScheduled {
      BroadcastTouchesOnly(cfg, TakeBatch(s, g), g, s.spawns[g].pendingData);
    }
  }

  lemma BroadcastTouchesOnly(cfg: Config, s: Session, g: nat, batch: string)
    ensures var t := Broadcast(cfg, s, g, batch);
            t == s.(clients := t.clients, disk := t.disk, ring := t.ring, warm := t.warm, replay := t.replay,
                    chunkLog := t.chunkLog, issued := t.issued, logTags := t.logTags)
  {
    hide DiskAppend, Encode, RingAppend, Deliver;
  }

  /** Output, a flush and the death of one process leave every other one's output alone. */
  lemma OtherSpawnsUntouched(cfg: Config, s: Session, e: Event, g: nat)
    requires (e.EvData? || e.EvFlush?) && e.g != g
    ensures g in Step(cfg, s, e).spawns <==> g in s.spawns
    ensures g in s.spawns ==> Step(cfg, s, e).spawns[g] == s.spawns[g]
  {
    hide Broadcast;
    if e.EvFlush? && e.g in s.spawns {
      BroadcastTouchesOnly(cfg, TakeBatch(s, e.g), e.g, s.spawns[e.g].pendingData);
    }
  }
}
