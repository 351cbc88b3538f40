/** What a reader may rely on over whole runs of a session. */
module PtySessionTheorems {
  import opened Wrappers
  import opened Utf8
  import opened ScrollbackSpec
  import opened SessionPolicy
  import opened PtySession
  import opened PtySessionInvariant
  import opened PtySessionEffect

  // ---------------------------------------------------------------- exact reconnect

  /** Everything `c` received since that attach: the current history from `from` on. */
  predicate StreamFrom(s: Session, c: ClientId, token: nat, g: nat, from: nat) {
    Attached(s.clients, c, token) ==>
      s.generation == g && from <= |CurrentHistory(s)| && s.clients[c].frames == Frames(g, CurrentHistory(s), from)
  }

  lemma StepKeepsStream(cfg: Config, s: Session, e: Event, c: ClientId, token: nat, g: nat, from: nat)
    requires Inv(cfg, s) && token < s.nextToken && StreamFrom(s, c, token, g, from)
    ensures StreamFrom(Step(cfg, s, e), c, token, g, from) && token < Step(cfg, s, e).nextToken
  {
    hide Step, DiskInv, RingInv, WarmInv, SpawnInv, OriginInv, IssuedInv, TagsInv, StdinInv, FlowInv, LifeInv;
    var t := Step(cfg, s, e);
    StepEffect(cfg, s, e);
    StepKeepsInv(cfg, s, e);
    if Attached(t.clients, c, token) {
      assert KeptClient(s, t, c);
      assert ClientOk(t.clients[c], t.generation, CurrentHistory(t), t.nextToken);
    }
  }

  lemma {:induction false} RunKeepsStream(cfg: Config, s: Session, es: seq<Event>, c: ClientId, token: nat, g: nat, from: nat)
    requires Inv(cfg, s) && token < s.nextToken && StreamFrom(s, c, token, g, from)
    ensures StreamFrom(Run(cfg, s, es), c, token, g, from)
    decreases |es|
  {
    hide Inv, Step, StreamFrom;
    if es != [] {
      StepKeepsStream(cfg, s, es[0], c, token, g, from);
      StepKeepsInv(cfg, s, es[0]);
      RunKeepsStream(cfg, Step(cfg, s, es[0]), es[1..], c, token, g, from);
    }
  }

  /** The cursor names a chunk of the current generation, and all that came after it is retained:
      the cases that the delta and the empty-handed branch serve. */
  predicate Serviceable(s: Session, cursor: LastSeen) {
    && s.ring.Some?
    && cursor.generation == s.generation
    && cursor.seqNo < s.ring.value.nextSeq
    && cursor.seqNo + 1 >= s.ring.value.nextSeq - |s.ring.value.chunks|
  }

  /** Main result: exact reconnect. A chunk client that comes back with an honest, retained cursor
      has received, at any later point of any run while that attach lasts, exactly the chunks of the
      history after its cursor: no gap, no duplicate, no reordering, whatever flushes, detaches and
      other clients do in between. */
  lemma ExactReconnect(cfg: Config, s: Session, c: ClientId, dims: Dims, pid: nat, separator: string,
                       caps: Capabilities, cursor: LastSeen, es: seq<Event>)
    requires Inv(cfg, s) && s.attaching.None? && s.state == Running
    requires caps.binary && caps.chunkedReplay && ParseLastSeen(caps.lastSeen) == Some(cursor)
    requires Serviceable(s, cursor)
    ensures var t := AttachChunk(cfg, s, c, dims, pid, separator, caps);
            var u := Run(cfg, t, es);
            && t.attaching.None? && Attached(t.clients, c, s.nextToken)
            && (Attached(u.clients, c, s.nextToken) ==>
                  && u.generation == s.generation
                  && cursor.seqNo < |CurrentHistory(u)|
                  && u.clients[c].frames == Frames(s.generation, CurrentHistory(u), cursor.seqNo + 1))
  {
    hide Inv, AttachChunk, Serviceable, Run, Frames, ParseLastSeen, CurrentHistory;
    AttachServesDelta(cfg, s, c, dims, pid, separator, caps, cursor);
    AttachChunkKeeps(cfg, s, c, dims, pid, separator, caps);
    RunKeepsStream(cfg, AttachChunk(cfg, s, c, dims, pid, separator, caps), es, c, s.nextToken, s.generation, cursor.seqNo + 1);
  }

  lemma AttachServesDelta(cfg: Config, s: Session, c: ClientId, dims: Dims, pid: nat, separator: string,
                          caps: Capabilities, cursor: LastSeen)
    requires Inv(cfg, s) && s.attaching.None? && s.state == Running
    requires caps.binary && caps.chunkedReplay && ParseLastSeen(caps.lastSeen) == Some(cursor)
    requires Serviceable(s, cursor)
    ensures var t := AttachChunk(cfg, s, c, dims, pid, separator, caps);
            && t.attaching.None? && t.nextToken == s.nextToken + 1
            && Attached(t.clients, c, s.nextToken) && StreamFrom(t, c, s.nextToken, s.generation, cursor.seqNo + 1)
  {
    hide DiskInv, WarmInv, SpawnInv, OriginInv, IssuedInv, TagsInv, StdinInv, ClientsInv, FlowInv, LifeInv, Suspend,
         SuspendUnlessEmpty, RegisterChunk, ReadSince, TagAll, ParseLastSeen;
    ReadSinceDecides(s.ring.value, CurrentHistory(s), cfg.budget, cursor);
    if ReadSince(s.ring, Some(cursor)).Delta? {
      DeltaFrames(cfg, s, cursor);
      RegisterOpensStream(s, c, TagAll(s.generation, ReadSince(s.ring, Some(cursor)).chunks), cursor.seqNo + 1);
    } else {
      RegisterOpensStream(s, c, [], cursor.seqNo + 1);
    }
  }

  lemma {:induction false} RunGenerationGrows(cfg: Config, s: Session, es: seq<Event>)
    ensures Run(cfg, s, es).generation >= s.generation
    decreases |es|
  {
    hide Step;
    if es != [] {
      StepEffect(cfg, s, es[0]);
      RunGenerationGrows(cfg, Step(cfg, s, es[0]), es[1..]);
    }
  }

  lemma RegisterOpensStream(s: Session, c: ClientId, frames: seq<Frame>, from: nat)
    requires from <= |CurrentHistory(s)| && frames == Frames(s.generation, CurrentHistory(s), from)
    ensures var t := RegisterChunk(s, c, frames);
            && t.attaching == s.attaching && t.nextToken == s.nextToken + 1
            && Attached(t.clients, c, s.nextToken) && StreamFrom(t, c, s.nextToken, s.generation, from)
  {
    hide Frames, ShouldPause;
  }

  // ---------------------------------------------------------------- attach tokens

  /** Attach fencing over runs, for clients of either kind: only a detach that is untagged or carries
      the attach's own token, a new attach of the same client, or a new generation takes a client
      off. */
  lemma {:induction false} AttachmentSurvives(cfg: Config, s: Session, es: seq<Event>, c: ClientId, token: nat)
    requires Holds(s.clients, c, token) && s.attaching != Some(c)
    requires forall i :: 0 <= i < |es| ==> !Displaces(es[i], c, token)
    requires Run(cfg, s, es).generation == s.generation
    ensures Holds(Run(cfg, s, es).clients, c, token)
    ensures Run(cfg, s, es).clients[c].ChunkClient? <==> s.clients[c].ChunkClient?
    decreases |es|
  {
    hide Step;
    if es != [] {
      var t := Step(cfg, s, es[0]);
      StepEffect(cfg, s, es[0]);
      RunGenerationGrows(cfg, t, es[1..]);
      assert !Displaces(es[0], c, token);
      forall i | 0 <= i < |es[1..]| ensures !Displaces(es[1..][i], c, token) {
        assert es[1..][i] == es[i + 1];
      }
      AttachmentSurvives(cfg, t, es[1..], c, token);
    }
  }

  /** This step attaches `c`, as a client of either kind, under a token that the host mints. */
  predicate MintsFor(cfg: Config, s: Session, e: Event, c: ClientId) {
    match e
    case EvAttachString(d, pid, separator, callerToken) =>
      d == c && callerToken.None? && s.attaching.None? && EnsureRunning(cfg, s, pid, separator).Some?
    case EvAttachChunk(d, dims, pid, separator, caps) =>
      d == c && s.attaching.None? && EnsureRunning(cfg, s, pid, separator).Some? &&
      AttachChunk(cfg, s, d, dims, pid, separator, caps).attaching.None?
    case EvFinishAttach => s.attaching == Some(c) && !ReplayOpen(s)
    case _ => false
  }

  lemma StringTokenMinted(cfg: Config, s: Session, e: Event, c: ClientId)
    requires e.EvAttachString? && MintsFor(cfg, s, e, c)
    ensures var t := Step(cfg, s, e); Holds(t.clients, c, s.nextToken) && t.nextToken == s.nextToken + 1 && t.attaching.None?
  {
    EnsureRunningMakesRunning(cfg, s, e.pid, e.separator);
    hide EnsureRunning, ShouldPause, DiskFlush;
  }

  lemma ChunkTokenMinted(cfg: Config, s: Session, e: Event, c: ClientId)
    requires e.EvAttachChunk? && MintsFor(cfg, s, e, c)
    ensures var t := Step(cfg, s, e); Holds(t.clients, c, s.nextToken) && t.nextToken == s.nextToken + 1 && t.attaching.None?
  {
    hide EnsureRunning, RegisterChunk, ReadSince, TagAll, ParseLastSeen, ReadTail, DiskFlush, BuildReplay, OpenReplay;
    EnsureRunningMakesRunning(cfg, s, e.pid, e.separator);
    var r := EnsureRunning(cfg, s, e.pid, e.separator).value;
    var decision := ReadSince(r.ring, ParseLastSeen(e.caps.lastSeen));
    RegisteredToken(r, c, []);
    RegisteredToken(FlushLog(cfg, r), c, []);
    if decision.Delta? {
      RegisteredToken(r, c, TagAll(r.generation, decision.chunks));
    }
  }

  lemma RegisteredToken(s: Session, c: ClientId, frames: seq<Frame>)
    ensures var t := RegisterChunk(s, c, frames);
            Holds(t.clients, c, s.nextToken) && t.nextToken == s.nextToken + 1 && t.attaching == s.attaching
  {
    hide ShouldPause;
  }

  /** A minted token is the host's next one, and is used up. */
  lemma TokenMinted(cfg: Config, s: Session, e: Event, c: ClientId)
    requires MintsFor(cfg, s, e, c)
    ensures var t := Step(cfg, s, e); Holds(t.clients, c, s.nextToken) && t.nextToken == s.nextToken + 1 && t.attaching.None?
  {
    if e.EvAttachString? {
      StringTokenMinted(cfg, s, e, c);
    } else if e.EvAttachChunk? {
      ChunkTokenMinted(cfg, s, e, c);
    } else {
      RegisteredToken(s.(attaching := None, replay := None), c, []);
    }
    hide *;
  }

  lemma {:induction false} RunTokensGrow(cfg: Config, s: Session, es: seq<Event>)
    ensures Run(cfg, s, es).nextToken >= s.nextToken
    decreases |es|
  {
    hide Step;
    if es != [] {
      StepEffect(cfg, s, es[0]);
      RunTokensGrow(cfg, Step(cfg, s, es[0]), es[1..]);
    }
  }

  /** Main result: a stale token never detaches a newer attach. Let `c` be attached twice, each time
      as a client of either kind and under a token minted by the host, with any run in between. Then
      the second token is the greater one, and in any later run that stays in the generation and does
      not itself replace or take off the second attach, the second attach is in place, however many
      detaches carried the first token; and one more such detach changes no client at all. */
  lemma StaleTokenNeverDetaches(cfg: Config, s: Session, first: Event, es: seq<Event>, second: Event, fs: seq<Event>,
                                c: ClientId)
    requires MintsFor(cfg, s, first, c)
    requires MintsFor(cfg, Run(cfg, Step(cfg, s, first), es), second, c)
    ensures var r := Run(cfg, Step(cfg, s, first), es);
            var q := Step(cfg, r, second);
            var u := Run(cfg, q, fs);
            && s.nextToken < r.nextToken && Holds(q.clients, c, r.nextToken)
            && (u.generation == q.generation &&
                (forall i :: 0 <= i < |fs| ==>
                   fs[i] == EvDetach(c, Some(s.nextToken)) || !Displaces(fs[i], c, r.nextToken)) ==>
                  && Holds(u.clients, c, r.nextToken)
                  && Step(cfg, u, EvDetach(c, Some(s.nextToken))).clients == u.clients)
  {
    hide Run, MintsFor, AttachString, AttachChunk, FinishAttach;
    var r := Run(cfg, Step(cfg, s, first), es);
    TokenMinted(cfg, s, first, c);
    RunTokensGrow(cfg, Step(cfg, s, first), es);
    TokenMinted(cfg, r, second, c);
    var q := Step(cfg, r, second);
    var u := Run(cfg, q, fs);
    if u.generation == q.generation &&
       forall i :: 0 <= i < |fs| ==> fs[i] == EvDetach(c, Some(s.nextToken)) || !Displaces(fs[i], c, r.nextToken) {
      hide Step;
      AttachmentSurvives(cfg, q, fs, c, r.nextToken);
      OtherTokenIsIgnored(cfg, u, c, s.nextToken);
    }
  }

  lemma OtherTokenIsIgnored(cfg: Config, s: Session, c: ClientId, token: nat)
    requires !Holds(s.clients, c, token)
    ensures Step(cfg, s, EvDetach(c, Some(token))) == s
  {
  }

  // ---------------------------------------------------------------- after a full replay

  /** A full replay registers the client only when it is finished: from then on its frames are the
      history after that moment, without a gap. */
  lemma FullReplayThenLive(cfg: Config, s: Session, es: seq<Event>)
    requires Inv(cfg, s) && s.attaching.Some? && !ReplayOpen(s)
    ensures var c, t := s.attaching.value, FinishAttach(s);
            var u := Run(cfg, t, es);
            && Attached(t.clients, c, s.nextToken)
            && (Attached(u.clients, c, s.nextToken) ==>
                  && u.generation == s.generation && |CurrentHistory(s)| <= |CurrentHistory(u)|
                  && u.clients[c].frames == Frames(s.generation, CurrentHistory(u), |CurrentHistory(s)|))
  {
    FinishAttachKeeps(cfg, s);
    FinishOpensStream(s);
    hide Inv, FinishAttach, Run;
    RunKeepsStream(cfg, FinishAttach(s), es, s.attaching.value, s.nextToken, s.generation, |CurrentHistory(s)|);
  }

  lemma FinishOpensStream(s: Session)
    requires s.attaching.Some? && !ReplayOpen(s)
    ensures var c, t := s.attaching.value, FinishAttach(s);
            && Attached(t.clients, c, s.nextToken) && t.nextToken == s.nextToken + 1
            && t.generation == s.generation && t.chunkLog == s.chunkLog
            && StreamFrom(t, c, s.nextToken, s.generation, |CurrentHistory(s)|)
  {
    hide ShouldPause;
  }

  /** While the replay is awaited no mutex holder runs: the session stays running in its generation,
      the same client keeps waiting, and the history grows by exactly what flushes number. */
  lemma {:induction false} AwaitedReplayHoldsTheSession(cfg: Config, s: Session, es: seq<Event>)
    requires Inv(cfg, s) && s.attaching.Some?
    requires forall i :: 0 <= i < |es| ==> !es[i].EvFinishAttach?
    ensures var u := Run(cfg, s, es);
            && u.attaching == s.attaching && u.state == Running && u.generation == s.generation
            && |CurrentHistory(u)| - |CurrentHistory(s)| == |u.issued| - |s.issued|
            && CurrentHistory(s) <= CurrentHistory(u)
    decreases |es|
  {
    hide Inv, Step;
    assert s.state == Running by { AttachingRuns(cfg, s); }
    if es != [] {
      StepEffect(cfg, s, es[0]);
      StepKeepsInv(cfg, s, es[0]);
      forall i | 0 <= i < |es[1..]| ensures !es[1..][i].EvFinishAttach? {
        assert es[1..][i] == es[i + 1];
      }
      AwaitedReplayHoldsTheSession(cfg, Step(cfg, s, es[0]), es[1..]);
    }
  }

  lemma AttachingRuns(cfg: Config, s: Session)
    requires Inv(cfg, s) && s.attaching.Some?
    ensures s.state == Running
  {
  }

  // ---------------------------------------------------------------- the generation fence

  /** Every frame a client holds carries the current generation and its chunk's number and bytes. */
  predicate FramesAreCurrent(s: Session) {
    forall c, i :: c in s.clients && s.clients[c].ChunkClient? && 0 <= i < |s.clients[c].frames| ==>
      var f := s.clients[c].frames[i];
      f.generation == s.generation && f.seqNo < |CurrentHistory(s)| && f.data == CurrentHistory(s)[f.seqNo]
  }

  /** What was numbered under a generation is what that generation's process emitted, in its order. */
  predicate ChunksComeFromTheirSpawn(s: Session) {
    forall g :: g in s.chunkLog ==>
      g in s.spawns && Subsequence(s.chunkLog[g], EncodeEach(s.spawns[g].batches)) &&
      Joined(s.spawns[g].batches) <= s.spawns[g].emitted
  }

  predicate NoNumberTwice(s: Session) {
    forall i, j :: 0 <= i < j < |s.issued| ==> s.issued[i] != s.issued[j]
  }

  predicate LogNeverGoesBack(s: Session) {
    forall i, j :: 0 <= i < j < |s.logTags| ==> s.logTags[i] <= s.logTags[j]
  }

  predicate StdinIsFenced(s: Session) {
    forall i :: 0 <= i < |s.stdin| ==>
      s.stdin[i].tag.None? || s.stdin[i].tag.value == 0 || s.stdin[i].tag.value == s.stdin[i].spawn
  }

  lemma FenceInState(cfg: Config, s: Session)
    requires Inv(cfg, s)
    ensures FramesAreCurrent(s) && ChunksComeFromTheirSpawn(s)
    ensures NoNumberTwice(s) && LogNeverGoesBack(s) && StdinIsFenced(s)
  {
    hide DiskInv, RingInv, WarmInv, FlowInv, Subsequence, EncodeEach, Joined;
    forall c, i | c in s.clients && s.clients[c].ChunkClient? && 0 <= i < |s.clients[c].frames|
      ensures var f := s.clients[c].frames[i];
              f.generation == s.generation && f.seqNo < |CurrentHistory(s)| && f.data == CurrentHistory(s)[f.seqNo]
    {
      assert ClientOk(s.clients[c], s.generation, CurrentHistory(s), s.nextToken);
    }
    forall g | g in s.chunkLog ensures g in s.spawns && Joined(s.spawns[g].batches) <= s.spawns[g].emitted {
      assert SpawnOk(s.spawns[g]);
    }
  }

  /** Main result: the generation fence holds in every state reachable from a new or a reloaded
      session, over every run. */
  lemma GenerationFence(cfg: Config, command: Command, disk: Disk, generation: nat, recorded: Option<EndReason>,
                        isDaemon: bool, wasGraceful: bool, es: seq<Event>)
    requires DiskInv(disk, cfg.limits)
    ensures forall start :: start == Created(command, disk) ||
                            start == Loaded(command, disk, generation, recorded, isDaemon, wasGraceful) ==>
              var s := Run(cfg, start, es);
              FramesAreCurrent(s) && ChunksComeFromTheirSpawn(s) && NoNumberTwice(s) && LogNeverGoesBack(s) &&
              StdinIsFenced(s)
  {
    InitialInv(cfg, command, disk, generation, recorded, isDaemon, wasGraceful);
    var a, b := Created(command, disk), Loaded(command, disk, generation, recorded, isDaemon, wasGraceful);
    RunKeepsInv(cfg, a, es);
    RunKeepsInv(cfg, b, es);
    FenceInState(cfg, Run(cfg, a, es));
    FenceInState(cfg, Run(cfg, b, es));
    hide *;
  }

  /** Chunk histories only grow, so a (generation, number) pair names the same bytes forever. */
  lemma {:induction false} HistoryOnlyGrows(cfg: Config, s: Session, es: seq<Event>, g: nat)
    ensures ChunkHistory(s.chunkLog, g) <= ChunkHistory(Run(cfg, s, es).chunkLog, g)
    decreases |es|
  {
    hide Step;
    if es != [] {
      StepEffect(cfg, s, es[0]);
      HistoryOnlyGrows(cfg, Step(cfg, s, es[0]), es[1..], g);
    }
  }

  // ---------------------------------------------------------------- no silent respawn

  /** A custom command, and a session ended by a crash or without a recorded reason. */
  predicate MustNotResume(s: Session) {
    s.command.Custom? || s.endReason == None || s.endReason == Some(ServerCrash) || s.endReason == Some(DaemonCrash)
  }

  /** A shell or an agent that ended by itself, by a signal or in an orderly shutdown. */
  predicate MayResume(s: Session) {
    (s.command == Shell || s.command == Claude) && s.endReason.Some? &&
    (s.endReason.value.Exit? || s.endReason.value.Signal? || s.endReason.value == ServerGraceful ||
     s.endReason.value == DaemonGraceful)
  }

  lemma PolicyIsExact(s: Session)
    ensures IsAutoResumable(s.command, s.endReason) <==> MayResume(s)
    ensures MustNotResume(s) <==> !MayResume(s)
  {
  }

  /** Main result: a session that a crash ended, or whose command is the user's own, is never
      spawned again by any run without an explicit restart. */
  lemma {:induction false} NoSilentRespawn(cfg: Config, s: Session, es: seq<Event>)
    requires s.state == Ended && MustNotResume(s)
    requires forall i :: 0 <= i < |es| ==> !es[i].EvRestart?
    ensures var u := Run(cfg, s, es);
            u.state == Ended && u.generation == s.generation && u.spawns.Keys == s.spawns.Keys && MustNotResume(u)
    decreases |es|
  {
    hide Step;
    if es != [] {
      StepEffect(cfg, s, es[0]);
      PolicyIsExact(s);
      forall i | 0 <= i < |es[1..]| ensures !es[1..][i].EvRestart? {
        assert es[1..][i] == es[i + 1];
      }
      NoSilentRespawn(cfg, Step(cfg, s, es[0]), es[1..]);
    }
  }

  /** So a session reloaded after a crash stays ended until it is restarted. */
  lemma CrashedSessionStaysEnded(cfg: Config, command: Command, disk: Disk, generation: nat, isDaemon: bool, es: seq<Event>)
    requires forall i :: 0 <= i < |es| ==> !es[i].EvRestart?
    ensures var s := Loaded(command, disk, generation, None, isDaemon, false);
            var u := Run(cfg, s, es);
            && s.endReason == Some(if isDaemon then DaemonCrash else ServerCrash)
            && u.state == Ended && u.generation == generation && u.spawns == map[]
  {
    var s := Loaded(command, disk, generation, None, isDaemon, false);
    NoSilentRespawn(cfg, s, es);
    assert Run(cfg, s, es).spawns.Keys == {};
  }

  /** The other way round, an attach of either kind resumes what may be resumed: the session runs in the
      next generation, in a process of its own. */
  lemma AttachResumes(cfg: Config, s: Session, e: Event)
    requires s.state == Ended && s.attaching.None? && MayResume(s)
    requires e.EvAttachString? || e.EvAttachChunk?
    ensures var t := Step(cfg, s, e);
            && t.state == Running && t.generation == s.generation + 1 && t.infoGeneration == t.generation
            && t.process == Some(t.generation) && t.pid == Some(e.pid) && t.endReason == None
            && t.spawns == s.spawns[t.generation := Spawn("", false, "", [])]
            && (t.attaching.Some? || t.clients.Keys == {e.c})
  {
    PolicyIsExact(s);
    var r := AutoResume(cfg, s, e.pid, e.separator);
    assert EnsureRunning(cfg, s, e.pid, e.separator) == Some(r);
    ResumedFields(cfg, s, e.pid, e.separator);
    hide EnsureRunning, AutoResume;
    AttachKeepsLife(cfg, s, e);
  }

  lemma ResumedFields(cfg: Config, s: Session, pid: nat, separator: string)
    ensures var r := AutoResume(cfg, s, pid, separator);
            && r.state == Running && r.generation == s.generation + 1 && r.infoGeneration == r.generation
            && r.process == Some(r.generation) && r.pid == Some(pid) && r.endReason == None
            && r.spawns == s.spawns[r.generation := Spawn("", false, "", [])]
            && r.clients == map[] && r.attaching == s.attaching
  {
    hide DiskAppend, Encode, WriteReplay, WriteWarm;
  }

  /** Beyond making it run, an attach leaves the life of the session alone. */
  lemma AttachKeepsLife(cfg: Config, s: Session, e: Event)
    requires e.EvAttachString? || e.EvAttachChunk?
    requires s.attaching.None? && EnsureRunning(cfg, s, e.pid, e.separator).Some?
    ensures var r, t := EnsureRunning(cfg, s, e.pid, e.separator).value, Step(cfg, s, e);
            && t.state == r.state && t.generation == r.generation && t.infoGeneration == r.infoGeneration
            && t.process == r.process && t.pid == r.pid && t.endReason == r.endReason && t.spawns == r.spawns
            && (t.attaching.Some? || t.clients.Keys == r.clients.Keys + {e.c})
  {
    hide EnsureRunning, ReadSince, ReadTail, TagAll, ParseLastSeen, BuildReplay, OpenReplay, DiskFlush, ShouldPause;
    var r := EnsureRunning(cfg, s, e.pid, e.separator).value;
    if e.EvAttachChunk? {
      var frames := AttachChunkForms(cfg, s, e);
      hide AttachChunk;
    }
  }

  /** A user's own command keeps its generation, and a generation is spawned at most once. */
  lemma {:induction false} CustomSpawnsOnce(cfg: Config, s: Session, es: seq<Event>)
    requires s.command.Custom? && forall i :: 0 <= i < |es| ==> !es[i].EvRestart?
    ensures Run(cfg, s, es).generation == s.generation
    ensures Run(cfg, s, es).spawns.Keys <= s.spawns.Keys + {s.generation}
    decreases |es|
  {
    hide Step;
    if es != [] {
      StepEffect(cfg, s, es[0]);
      forall i | 0 <= i < |es[1..]| ensures !es[1..][i].EvRestart? {
        assert es[1..][i] == es[i + 1];
      }
      CustomSpawnsOnce(cfg, Step(cfg, s, es[0]), es[1..]);
    }
  }

  // ---------------------------------------------------------------- warm state

  /** While the session's whole history fits in a tail, replaying from the warm terminal and
      rebuilding a cold one from the log give the terminal the same input. */
  lemma WarmAgreesWithRebuild(cfg: Config, start: Session, es: seq<Event>, dims: Dims)
    requires Inv(cfg, start)
    ensures var s := Run(cfg, start, es);
            var tail := ReadTail(s.disk, cfg.limits);
            && (s.warm.Some? ==> IsSuffix(s.warm.value.input, History(s.disk)))
            && (|History(s.disk)| <= cfg.limits.tailBytes && tail != [] ==>
                  BuildReplay(s.warm, tail, dims) == BuildReplay(None, tail, dims))
  {
    RunKeepsInv(cfg, start, es);
    var s := Run(cfg, start, es);
    ReadTailIsTailOfHistory(s.disk, cfg.limits);
    hide Run, ReadTail, History;
  }
}
