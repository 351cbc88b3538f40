/** How far one step of a session can reach, whichever step it is. The theorems about runs use
    only this. */
module PtySessionEffect {
  import opened Wrappers
  import opened Utf8
  import opened ScrollbackSpec
  import opened SessionPolicy
  import opened PtySession
  import opened PtySessionInvariant

  function CurrentHistory(s: Session): seq<Bytes> {
    ChunkHistory(s.chunkLog, s.generation)
  }

  /** The attach that was stamped `token` is still the one `c` has. */
  predicate Holds(clients: map<ClientId, Client>, c: ClientId, token: nat) {
    c in clients && clients[c].token == token
  }

  /** … and it is the attach of a chunk client. */
  predicate Attached(clients: map<ClientId, Client>, c: ClientId, token: nat) {
    Holds(clients, c, token) && clients[c].ChunkClient?
  }

  /** The events that can end the attach stamped `token` of client `c`, besides a new generation. */
  predicate Displaces(e: Event, c: ClientId, token: nat) {
    match e
    case EvDetach(d, expected) => d == c && (expected.None? || expected.value == token)
    case EvAttachString(d, _, _, _) => d == c
    case EvAttachChunk(d, _, _, _, _) => d == c
    case _ => false
  }

  /** A generation begins only where the last one has ended, on request or because that is safe. */
  ghost predicate LifeEffect(s: Session, e: Event, t: Session) {
    && t.command == s.command
    && t.nextToken >= s.nextToken
    && (t.generation == s.generation ||
        (t.generation == s.generation + 1 && s.state == Ended &&
         (e.EvRestart? || IsAutoResumable(s.command, s.endReason))))
    && s.spawns.Keys <= t.spawns.Keys <= s.spawns.Keys + {t.generation}
    && (s.state == Ended && t.generation == s.generation ==>
          t.state == Ended && t.endReason == s.endReason && t.spawns.Keys == s.spawns.Keys)
    && (s.state != Ended && t.state == Ended ==> e.EvShutdown? || (e.EvExit? && e.g == s.generation))
  }

  /** Histories only grow, only in the current generation, and each new chunk gets a new number. */
  ghost predicate HistoryEffect(s: Session, t: Session) {
    && t.generation >= s.generation
    && (forall g :: ChunkHistory(s.chunkLog, g) <= ChunkHistory(t.chunkLog, g))
    && (forall g :: g != s.generation ==> ChunkHistory(t.chunkLog, g) == ChunkHistory(s.chunkLog, g))
    && (t.generation == s.generation ==>
          |CurrentHistory(t)| - |CurrentHistory(s)| == |t.issued| - |s.issued|)
  }

  ghost predicate AttachingEffect(s: Session, e: Event, t: Session) {
    && (s.attaching.Some? && !e.EvFinishAttach? ==> t.attaching == s.attaching && t.generation == s.generation)
    && (t.attaching.Some? ==> t.attaching == s.attaching || (e.EvAttachChunk? && e.c == t.attaching.value))
  }

  /** An old attach that is still there gained as many frames as the history gained chunks. */
  ghost predicate KeptClient(s: Session, t: Session, c: ClientId)
    requires c in t.clients && t.clients[c].ChunkClient?
  {
    && c in s.clients && s.clients[c].ChunkClient? && s.clients[c].token == t.clients[c].token
    && t.generation == s.generation
    && |t.clients[c].frames| - |s.clients[c].frames| == |CurrentHistory(t)| - |CurrentHistory(s)|
  }

  ghost predicate ClientsEffect(s: Session, e: Event, t: Session) {
    && (forall c :: c in t.clients && t.clients[c].ChunkClient? ==>
          t.clients[c].token >= s.nextToken || KeptClient(s, t, c))
    && (t.generation == s.generation ==>
          forall c: ClientId, token: nat :: Holds(s.clients, c, token) && s.attaching != Some(c) && !Displaces(e, c, token)
                             ==> Holds(t.clients, c, token) && (t.clients[c].ChunkClient? <==> s.clients[c].ChunkClient?))
  }

  ghost predicate Effect(s: Session, e: Event, t: Session) {
    LifeEffect(s, e, t) && HistoryEffect(s, t) && AttachingEffect(s, e, t) && ClientsEffect(s, e, t)
  }

  /** Two states that differ at most in the disk log, the warm terminal, stdin, the ring and the
      pause flags. */
  ghost predicate SameCore(a: Session, b: Session) {
    && a.command == b.command && a.state == b.state && a.endReason == b.endReason
    && a.generation == b.generation && a.chunkLog == b.chunkLog && a.issued == b.issued
    && a.spawns == b.spawns && a.nextToken == b.nextToken && a.attaching == b.attaching && a.clients == b.clients
  }

  lemma SameCoreEffect(s: Session, e: Event, u: Session, t: Session)
    requires Effect(s, e, u) && SameCore(t, u)
    ensures Effect(s, e, t)
  {
  }

  lemma NoEffect(s: Session, e: Event)
    ensures Effect(s, e, s)
  {
  }

  lemma PauseCore(s: Session)
    ensures SameCore(ApplyPause(s), s)
  {
    hide ShouldPause;
  }

  /** Getting a session to run keeps its clients only if it was running already. */
  ghost predicate MadeRunning(s: Session, r: Session) {
    && r.command == s.command && r.nextToken == s.nextToken && r.attaching == s.attaching
    && r.chunkLog == s.chunkLog && r.issued == s.issued && r.state == Running
    && (s.state == Running ==> r.generation == s.generation && r.clients == s.clients && r.spawns == s.spawns)
    && (s.state == Spawning ==> r.generation == s.generation && r.clients == s.clients)
    && (s.state == Ended ==> IsAutoResumable(s.command, s.endReason) && r.generation == s.generation + 1 && r.clients == map[])
    && (s.state != Running ==> r.spawns.Keys == s.spawns.Keys + {r.generation})
  }

  lemma EnsureRunningMakesRunning(cfg: Config, s: Session, pid: nat, separator: string)
    ensures EnsureRunning(cfg, s, pid, separator).Some? ==> MadeRunning(s, EnsureRunning(cfg, s, pid, separator).value)
  {
    hide DiskAppend, Encode, IsAutoResumable, Record;
    if s.state == Ended {
      RecordCore(cfg, s, separator);
    }
  }

  lemma RecordCore(cfg: Config, s: Session, text: string)
    ensures SameCore(Record(cfg, s, s.generation, text), s)
  {
    hide DiskAppend, Encode;
  }

  /** Entering one client into a session that was made to run. */
  lemma EnterEffect(s: Session, e: Event, r: Session, c: ClientId, client: Client, nextToken: nat)
    requires MadeRunning(s, r) && s.attaching.None? && nextToken >= s.nextToken
    requires client.ChunkClient? ==> client.token >= s.nextToken
    requires (e.EvAttachString? && e.c == c) || (e.EvAttachChunk? && e.c == c)
    ensures Effect(s, e, r.(clients := r.clients[c := client], nextToken := nextToken))
  {
  }

  lemma WaitEffect(s: Session, e: Event, r: Session)
    requires MadeRunning(s, r) && s.attaching.None? && e.EvAttachChunk?
    ensures Effect(s, e, r.(attaching := Some(e.c)))
  {
  }

  lemma RegisterChunkCore(s: Session, c: ClientId, frames: seq<Frame>)
    ensures SameCore(RegisterChunk(s, c, frames),
                     s.(clients := s.clients[c := ChunkClient(s.nextToken, false, frames)], nextToken := s.nextToken + 1))
  {
    hide ShouldPause;
  }

  lemma SuspendCore(cfg: Config, s: Session, c: ClientId, dims: Dims)
    ensures SameCore(Suspend(cfg, s, c, dims), s.(attaching := Some(c)))
    ensures SameCore(FlushLog(cfg, s), s)
  {
    hide ReadTail, BuildReplay, DiskFlush;
  }

  lemma RegisterEffect(s: Session, e: Event, r: Session, u: Session, frames: seq<Frame>)
    requires MadeRunning(s, r) && s.attaching.None? && e.EvAttachChunk? && SameCore(u, r)
    ensures Effect(s, e, RegisterChunk(u, e.c, frames))
  {
    hide Effect, MadeRunning, RegisterChunk;
    var client := ChunkClient(r.nextToken, false, frames);
    assert r.nextToken == s.nextToken by { MadeRunningTokens(s, r); }
    EnterEffect(s, e, r, e.c, client, r.nextToken + 1);
    RegisterChunkCore(u, e.c, frames);
    SameCoreEffect(s, e, r.(clients := r.clients[e.c := client], nextToken := r.nextToken + 1), RegisterChunk(u, e.c, frames));
  }

  lemma MadeRunningTokens(s: Session, r: Session)
    requires MadeRunning(s, r)
    ensures r.nextToken == s.nextToken
  {
  }

  lemma AttachChunkEffect(cfg: Config, s: Session, e: Event)
    requires e.EvAttachChunk?
    ensures Effect(s, e, Step(cfg, s, e))
  {
    hide Effect, MadeRunning, EnsureRunning, RegisterChunk, Suspend, FlushLog, SameCore, ReadSince, ReadTail, TagAll,
         ParseLastSeen;
    NoEffect(s, e);
    EnsureRunningMakesRunning(cfg, s, e.pid, e.separator);
    var running := EnsureRunning(cfg, s, e.pid, e.separator);
    if s.attaching.None? && running.Some? {
      var r := running.value;
      SuspendCore(cfg, r, e.c, e.dims);
      WaitEffect(s, e, r);
      SameCoreEffect(s, e, r.(attaching := Some(e.c)), Suspend(cfg, r, e.c, e.dims));
      assert SameCore(r, r) by { SameCoreReflexive(r); }
      RegisterEffect(s, e, r, r, []);
      RegisterEffect(s, e, r, FlushLog(cfg, r), []);
      if ReadSince(r.ring, ParseLastSeen(e.caps.lastSeen)).Delta? {
        RegisterEffect(s, e, r, r, TagAll(r.generation, ReadSince(r.ring, ParseLastSeen(e.caps.lastSeen)).chunks));
      }
    }
  }

  lemma SameCoreReflexive(s: Session)
    ensures SameCore(s, s)
  {
  }

  lemma AttachStringEffect(cfg: Config, s: Session, e: Event)
    requires e.EvAttachString?
    ensures Effect(s, e, Step(cfg, s, e))
  {
    hide Effect, MadeRunning, EnsureRunning, FlushLog, ApplyPause, SameCore;
    NoEffect(s, e);
    EnsureRunningMakesRunning(cfg, s, e.pid, e.separator);
    var running := EnsureRunning(cfg, s, e.pid, e.separator);
    if s.attaching.None? && running.Some? {
      var r := running.value;
      assert r.nextToken == s.nextToken by { MadeRunningTokens(s, r); }
      var token := if e.callerToken.Some? then e.callerToken.value else r.nextToken;
      var nextToken := if e.callerToken.Some? then r.nextToken else r.nextToken + 1;
      var entered := r.(clients := r.clients[e.c := StringClient(token, false, [])], nextToken := nextToken);
      EnterEffect(s, e, r, e.c, StringClient(token, false, []), nextToken);
      PauseCore(entered);
      SuspendCore(cfg, ApplyPause(entered), e.c, Dims(0, 0));
      assert SameCore(FlushLog(cfg, ApplyPause(entered)), entered) by {
        SameCoreTransitive(FlushLog(cfg, ApplyPause(entered)), ApplyPause(entered), entered);
      }
      SameCoreEffect(s, e, entered, Step(cfg, s, e));
    }
  }

  lemma SameCoreTransitive(a: Session, b: Session, c: Session)
    requires SameCore(a, b) && SameCore(b, c)
    ensures SameCore(a, c)
  {
  }

  lemma FinishAttachEffect(cfg: Config, s: Session)
    ensures Effect(s, EvFinishAttach, Step(cfg, s, EvFinishAttach))
  {
    hide RegisterChunk, Effect, SameCore;
    if s.attaching.Some? && !ReplayOpen(s) {
      var c, waiting := s.attaching.value, s.(attaching := None, replay := None);
      RegisterChunkCore(waiting, c, []);
      EnteredEffect(s, c, ChunkClient(s.nextToken, false, []));
      var entered := waiting.(clients := s.clients[c := ChunkClient(s.nextToken, false, [])], nextToken := s.nextToken + 1);
      SameCoreEffect(s, EvFinishAttach, entered, RegisterChunk(waiting, c, []));
    } else {
      NoEffect(s, EvFinishAttach);
    }
  }

  lemma EnteredEffect(s: Session, c: ClientId, client: Client)
    requires s.attaching == Some(c) && client.ChunkClient? && client.token == s.nextToken
    ensures Effect(s, EvFinishAttach, s.(attaching := None, clients := s.clients[c := client], nextToken := s.nextToken + 1))
  {
  }

  lemma LeaveEffect(s: Session, e: Event)
    requires e.EvDetach?
    requires e.expectedToken.Some? && e.c in s.clients ==> s.clients[e.c].token == e.expectedToken.value
    ensures Effect(s, e, s.(clients := s.clients - {e.c}))
  {
  }

  lemma DetachEffect(cfg: Config, s: Session, e: Event)
    requires e.EvDetach?
    ensures Effect(s, e, Step(cfg, s, e))
  {
    hide Effect, SameCore, ApplyPause;
    NoEffect(s, e);
    var left := s.(clients := s.clients - {e.c});
    if !(e.expectedToken.Some? && (e.c !in s.clients || s.clients[e.c].token != e.expectedToken.value)) {
      LeaveEffect(s, e);
      PauseCore(left);
      SameCoreEffect(s, e, left, ApplyPause(left));
    }
  }

  lemma ReflagEffect(s: Session, e: Event)
    requires e.EvSetFlow? && e.c in s.clients
    ensures Effect(s, e, s.(clients := s.clients[e.c := s.clients[e.c].(flowPaused := e.paused)]))
  {
  }

  lemma SetFlowEffect(cfg: Config, s: Session, e: Event)
    requires e.EvSetFlow?
    ensures Effect(s, e, Step(cfg, s, e))
  {
    hide Effect, SameCore, ApplyPause;
    NoEffect(s, e);
    if e.c in s.clients {
      var reflagged := s.(clients := s.clients[e.c := s.clients[e.c].(flowPaused := e.paused)]);
      ReflagEffect(s, e);
      PauseCore(reflagged);
      SameCoreEffect(s, e, reflagged, ApplyPause(reflagged));
    }
  }

  lemma DeliveredFrames(client: Client, frame: Option<Frame>, batch: string)
    ensures Deliver(client, frame, batch).token == client.token
    ensures Deliver(client, frame, batch).ChunkClient? <==> client.ChunkClient?
    ensures client.ChunkClient? ==> |Deliver(client, frame, batch).frames| == |client.frames| + if frame.Some? then 1 else 0
  {
  }

  /** Delivering a batch, numbered or not, to every client at once. */
  lemma DeliveryEffect(s: Session, e: Event, t: Session, frame: Option<Frame>, batch: string)
    requires t.clients == map c | c in s.clients :: Deliver(s.clients[c], frame, batch)
    requires LifeEffect(s, e, t) && HistoryEffect(s, t) && AttachingEffect(s, e, t) && t.generation == s.generation
    requires |CurrentHistory(t)| == |CurrentHistory(s)| + if frame.Some? then 1 else 0
    ensures Effect(s, e, t)
  {
    hide Deliver, LifeEffect, HistoryEffect, AttachingEffect, CurrentHistory;
    forall c | c in s.clients
      ensures t.clients[c].token == s.clients[c].token && (t.clients[c].ChunkClient? <==> s.clients[c].ChunkClient?)
      ensures s.clients[c].ChunkClient? ==>
                |t.clients[c].frames| == |s.clients[c].frames| + if frame.Some? then 1 else 0
    {
      DeliveredFrames(s.clients[c], frame, batch);
    }
  }

  lemma BroadcastEffect(cfg: Config, s: Session, e: Event, batch: string)
    ensures Effect(s, e, Broadcast(cfg, s, s.generation, batch))
  {
    hide Effect, Deliver, DiskAppend, Encode, RingAppend;
    var t := Broadcast(cfg, s, s.generation, batch);
    var frame := if HasChunkClient(s.clients) then
                   Some(Frame(s.generation, t.issued[|t.issued| - 1].1, Encode(batch))) else None;
    DeliveryEffect(s, e, t, frame, batch);
  }

  lemma FlushEffect(cfg: Config, s: Session, e: Event)
    requires e.EvFlush?
    ensures Effect(s, e, Step(cfg, s, e))
  {
    hide Effect, Broadcast;
    NoEffect(s, e);
    if e.g in s.spawns {
      var t := TakeBatch(s, e.g);
      BroadcastEffect(cfg, t, e, s.spawns[e.g].pendingData);
      TakenEffect(s, e.g, e, Broadcast(cfg, t, t.generation, s.spawns[e.g].pendingData));
      NoEffect(t, e);
      TakenEffect(s, e.g, e, t);
    }
  }

  lemma TakenEffect(s: Session, g: nat, e: Event, t: Session)
    requires g in s.spawns && Effect(TakeBatch(s, g), e, t)
    ensures Effect(s, e, t)
  {
    assert TakeBatch(s, g).spawns.Keys == s.spawns.Keys;
  }

  lemma DataEffect(cfg: Config, s: Session, e: Event)
    requires e.EvData?
    ensures Effect(s, e, Step(cfg, s, e))
  {
    assert Step(cfg, s, e).spawns.Keys == s.spawns.Keys;
  }

  lemma EndEffect(cfg: Config, s: Session, e: Event)
    requires e.EvExit? || e.EvShutdown?
    ensures Effect(s, e, Step(cfg, s, e))
  {
    hide Effect, DeriveEndReason, End;
    NoEffect(s, e);
    if s.state != Ended && (e.EvExit? ==> e.g == s.generation) {
      StopEffect(s, e, if e.EvExit? then DeriveEndReason(e.signal, e.exitCode) else e.reason);
    }
  }

  lemma StopEffect(s: Session, e: Event, reason: EndReason)
    requires e.EvShutdown? || (e.EvExit? && e.g == s.generation)
    requires s.state != Ended
    ensures Effect(s, e, End(s, reason))
  {
  }

  lemma RestartEffect(cfg: Config, s: Session)
    ensures Effect(s, EvRestart, Step(cfg, s, EvRestart))
  {
  }

  lemma StepEffect(cfg: Config, s: Session, e: Event)
    ensures Effect(s, e, Step(cfg, s, e))
  {
    hide Effect, AttachString, AttachChunk, FinishAttach, Detach, SetFlow, Data, Flush, ProcessExit, Restart, Shutdown,
         DiskFlush, DiskStep;
    match e
    case EvAttachString(_, _, _, _) => AttachStringEffect(cfg, s, e);
    case EvAttachChunk(_, _, _, _, _) => AttachChunkEffect(cfg, s, e);
    case EvFinishAttach => FinishAttachEffect(cfg, s);
    case EvDetach(_, _) => DetachEffect(cfg, s, e);
    case EvSetFlow(_, _) => SetFlowEffect(cfg, s, e);
    case EvData(_, _) => DataEffect(cfg, s, e);
    case EvFlush(_) => FlushEffect(cfg, s, e);
    case EvExit(_, _, _) => EndEffect(cfg, s, e);
    case EvRestart => RestartEffect(cfg, s);
    case EvShutdown(_) => EndEffect(cfg, s, e);
    case EvOtherSessionMints => MintEffect(cfg, s);
    case _ =>
      NoEffect(s, e);
      SameCoreEffect(s, e, s, Step(cfg, s, e));
  }

  lemma MintEffect(cfg: Config, s: Session)
    ensures Effect(s, EvOtherSessionMints, Step(cfg, s, EvOtherSessionMints))
  {
  }

  // ---------------------------------------------------------------- how an attach ends

  /** `t` is `r` with at most a client entered and the log flushed. */
  ghost predicate EnteredInto(cfg: Config, r: Session, t: Session) {
    && t.generation == r.generation && t.spawns == r.spawns && t.chunkLog == r.chunkLog
    && t.warm == r.warm && t.attaching.None?
    && (t.disk == r.disk || t.disk == DiskFlush(r.disk, cfg.limits))
  }

  lemma RegisterEnters(cfg: Config, r: Session, q: Session, c: ClientId, client: Client, frames: seq<Frame>)
    requires EnteredInto(cfg, r, q)
    ensures EnteredInto(cfg, r, Register(q, c, client)) && EnteredInto(cfg, r, RegisterChunk(q, c, frames))
    ensures Register(q, c, client).disk == q.disk
  {
    hide ShouldPause, DiskFlush;
  }

  /** A chunk attach registers its client, or suspends. */
  lemma AttachChunkForms(cfg: Config, s: Session, e: Event) returns (frames: seq<Frame>)
    requires e.EvAttachChunk? && s.attaching.None? && EnsureRunning(cfg, s, e.pid, e.separator).Some?
    ensures var r, t := EnsureRunning(cfg, s, e.pid, e.separator).value, Step(cfg, s, e);
            || t == RegisterChunk(r, e.c, frames) || t == RegisterChunk(FlushLog(cfg, r), e.c, frames)
            || t == Suspend(cfg, r, e.c, e.dims)
  {
    hide EnsureRunning, RegisterChunk, ReadSince, ReadTail, TagAll, ParseLastSeen, Suspend, FlushLog;
    var r := EnsureRunning(cfg, s, e.pid, e.separator).value;
    var decision := ReadSince(r.ring, ParseLastSeen(e.caps.lastSeen));
    frames := if e.caps.binary && e.caps.chunkedReplay && decision.Delta? then TagAll(r.generation, decision.chunks) else [];
  }

  /** An attach enters a client into what it got running, or suspends it. */
  lemma AttachEnds(cfg: Config, s: Session, e: Event)
    requires e.EvAttachString? || e.EvAttachChunk?
    requires s.attaching.None? && EnsureRunning(cfg, s, e.pid, e.separator).Some?
    ensures var r, t := EnsureRunning(cfg, s, e.pid, e.separator).value, Step(cfg, s, e);
            EnteredInto(cfg, r, t) || (e.EvAttachChunk? && t == Suspend(cfg, r, e.c, e.dims))
  {
    hide EnsureRunning, Register, RegisterChunk, AttachChunk, Suspend, DiskFlush;
    EnsureRunningMakesRunning(cfg, s, e.pid, e.separator);
    var r := EnsureRunning(cfg, s, e.pid, e.separator).value;
    assert EnteredInto(cfg, r, FlushLog(cfg, r));
    var any := StringClient(0, false, []);
    if e.EvAttachString? {
      var token := if e.callerToken.Some? then e.callerToken.value else r.nextToken;
      var minted := r.(nextToken := if e.callerToken.Some? then r.nextToken else r.nextToken + 1);
      RegisterEnters(cfg, r, minted, e.c, StringClient(token, false, []), []);
    } else {
      var frames := AttachChunkForms(cfg, s, e);
      RegisterEnters(cfg, r, r, e.c, any, frames);
      RegisterEnters(cfg, r, FlushLog(cfg, r), e.c, any, frames);
    }
  }

  lemma AttachFields(cfg: Config, s: Session, e: Event)
    requires e.EvAttachString? || e.EvAttachChunk?
    requires s.attaching.None? && EnsureRunning(cfg, s, e.pid, e.separator).Some?
    ensures var r, t := EnsureRunning(cfg, s, e.pid, e.separator).value, Step(cfg, s, e);
            && t.generation == r.generation && t.spawns == r.spawns && t.chunkLog == r.chunkLog
            && (t.disk == r.disk || t.disk == DiskFlush(r.disk, cfg.limits))
            && (t.attaching.None? ==> t.warm == r.warm)
            && (t.attaching.Some? ==> e.EvAttachChunk? && t == Suspend(cfg, r, e.c, e.dims))
  {
    hide EnsureRunning, Step, ReadTail, BuildReplay, OpenReplay, DiskFlush;
    AttachEnds(cfg, s, e);
  }

  lemma AttachRefused(cfg: Config, s: Session, e: Event)
    requires e.EvAttachString? || e.EvAttachChunk?
    requires s.attaching.Some? || EnsureRunning(cfg, s, e.pid, e.separator).None?
    ensures Step(cfg, s, e) == s
  {
    hide EnsureRunning;
  }

  // ---------------------------------------------------------------- runs

  /** A run may be cut anywhere. */
  lemma {:induction false} RunPrefix(cfg: Config, s: Session, es: seq<Event>, i: nat)
    requires i <= |es|
    ensures Run(cfg, Run(cfg, s, es[..i]), es[i..]) == Run(cfg, s, es)
    decreases i
  {
    hide Step;
    if i == 0 {
      assert es[0..] == es;
    } else {
      RunPrefix(cfg, Step(cfg, s, es[0]), es[1..], i - 1);
      assert es[..i][1..] == es[1..][..i - 1] && es[1..][i - 1..] == es[i..];
    }
  }

  lemma RunOfOne(cfg: Config, s: Session, e: Event)
    ensures Run(cfg, s, [e]) == Step(cfg, s, e)
  {
    hide Step;
    assert [e][1..] == [];
  }

  lemma RunOfTwo(cfg: Config, s: Session, es: seq<Event>)
    requires |es| == 2
    ensures Run(cfg, s, es) == Step(cfg, Step(cfg, s, es[0]), es[1])
  {
    hide Step;
    assert es[1..][1..] == [];
    assert Run(cfg, s, es) == Run(cfg, Step(cfg, s, es[0]), es[1..]);
    assert es[1..][0] == es[1];
  }

  lemma RunOfThree(cfg: Config, s: Session, es: seq<Event>)
    requires |es| == 3
    ensures Run(cfg, s, es) == Step(cfg, Step(cfg, Step(cfg, s, es[0]), es[1]), es[2])
  {
    hide Step;
    assert Run(cfg, s, es) == Run(cfg, Step(cfg, s, es[0]), es[1..]);
    RunOfTwo(cfg, Step(cfg, s, es[0]), es[1..]);
    assert es[1..][0] == es[1] && es[1..][1] == es[2];
  }

  lemma RunOfFour(cfg: Config, s: Session, es: seq<Event>)
    requires |es| == 4
    ensures Run(cfg, s, es) == Step(cfg, Step(cfg, Step(cfg, Step(cfg, s, es[0]), es[1]), es[2]), es[3])
  {
    hide Step;
    RunPrefix(cfg, s, es, 2);
    RunOfTwo(cfg, s, es[..2]);
    RunOfTwo(cfg, Run(cfg, s, es[..2]), es[2..]);
  }
}
