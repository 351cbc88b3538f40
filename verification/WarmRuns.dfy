/** A session and the cache it shares with others, run side by side: whatever the cache does to the
    session's terminal, its state machine explains with drops. */
module WarmRuns {
  import opened Wrappers
  import opened Utf8
  import opened ScrollbackSpec
  import opened SessionPolicy
  import opened PtySession
  import opened PtySessionInvariant
  import opened PtySessionEffect
  import opened PtySessionOutput
  import SC = StateCache
  import WS = WarmSession

  type Cache = seq<SC.Entry>

  /** Two readings of the clock: what is older than the cutoff is pruned, what is used is stamped. */
  datatype Stamp = Stamp(cutoff: int, now: int)

  /** A step of the session, with the readings for the operations it may perform on the cache; or an
      operation of another session. */
  datatype Joint = Own(e: Event, first: Stamp, second: Stamp) | Other(op: WS.CacheOp)

  predicate Suspends(cfg: Config, s: Session, e: Event) {
    e.EvAttachChunk? && s.attaching.None? && Step(cfg, s, e).attaching.Some?
  }

  /** What a step of the session writes to its terminal first. */
  function WrittenBy(s: Session, e: Event): Option<string> {
    if FlushedBy(s, e).Some? then FlushedBy(s, e)
    else if (e.EvAttachString? || e.EvAttachChunk?) && Resumes(s) then Some(e.separator)
    else None
  }

  /** The log's tail, from which a suspended attach would rebuild. */
  function TailFor(cfg: Config, s: Session, e: Event): Bytes
    requires e.EvAttachChunk?
  {
    var r := EnsureRunning(cfg, s, e.pid, e.separator);
    if r.Some? then ReadTail(r.value.disk, cfg.limits) else []
  }

  function WriteOps(s: Session, e: Event, id: SC.Id, stamp: Stamp): seq<WS.CacheOp> {
    if WrittenBy(s, e).Some? then [WS.CacheOp.Write(id, Encode(WrittenBy(s, e).value), stamp.cutoff, stamp.now)] else []
  }

  function ReplayOps(cfg: Config, s: Session, e: Event, id: SC.Id, stamp: Stamp): seq<WS.CacheOp> {
    if Suspends(cfg, s, e) then [WS.CacheOp.Replay(id, TailFor(cfg, s, e), e.dims, stamp.cutoff, stamp.now)] else []
  }

  function OwnOps(cfg: Config, s: Session, id: SC.Id, e: Event, first: Stamp, second: Stamp): seq<WS.CacheOp> {
    WriteOps(s, e, id, first) + ReplayOps(cfg, s, e, id, second)
  }

  // ---------------------------------------------------------------- what a step does to its terminal

  function WrittenTo(s: Session, e: Event, w: Option<Warm>): Option<Warm> {
    if WrittenBy(s, e).Some? then WriteWarm(w, Encode(WrittenBy(s, e).value)) else w
  }

  /** What the step makes of a terminal `w`. */
  function StepsTo(cfg: Config, s: Session, e: Event, w: Option<Warm>): Option<Warm> {
    if Suspends(cfg, s, e) then BuildReplay(WrittenTo(s, e, w), TailFor(cfg, s, e), e.dims) else WrittenTo(s, e, w)
  }

  function OwnAll(w: Option<Warm>, ops: seq<WS.CacheOp>): Option<Warm>
    decreases |ops|
  {
    if ops == [] then w else OwnAll(WS.OwnStep(w, ops[0]), ops[1..])
  }

  lemma EnsureRunningWarm(cfg: Config, s: Session, pid: nat, separator: string)
    requires s.attaching.None? && EnsureRunning(cfg, s, pid, separator).Some?
    ensures EnsureRunning(cfg, s, pid, separator).value.warm ==
              if Resumes(s) then WriteWarm(s.warm, Encode(separator)) else s.warm
  {
    hide DiskAppend, Encode, IsAutoResumable;
  }

  lemma FlushWarm(cfg: Config, s: Session, e: Event)
    requires FlushedBy(s, e).Some?
    ensures Step(cfg, s, e).warm == WriteWarm(s.warm, Encode(FlushedBy(s, e).value))
  {
    hide DiskAppend, Encode, RingAppend, Deliver;
  }

  lemma OtherWarm(cfg: Config, s: Session, e: Event)
    requires FlushedBy(s, e).None? && !e.EvAttachString? && !e.EvAttachChunk? && !e.EvCacheDrop?
    ensures Step(cfg, s, e).warm == s.warm
  {
    hide DiskFlush, DiskStep, ShouldPause, Broadcast;
  }

  /** The session's own operations, performed on its terminal alone. */
  lemma StepWarm(cfg: Config, s: Session, e: Event)
    requires Inv(cfg, s) && !e.EvCacheDrop?
    ensures Step(cfg, s, e).warm == StepsTo(cfg, s, e, s.warm)
    ensures Suspends(cfg, s, e) ==>
              Step(cfg, s, e).replay == Some(OpenReplay(WrittenTo(s, e, s.warm), TailFor(cfg, s, e), e.dims))
  {
    hide Inv, EnsureRunning, Encode, FlushedBy, ReadTail, BuildReplay, OpenReplay, DiskFlush, Resumes, Step, AttachChunk;
    if FlushedBy(s, e).Some? {
      FlushWarm(cfg, s, e);
      FlushIsNoAttach(s, e);
    } else if e.EvAttachString? || e.EvAttachChunk? {
      if s.attaching.Some? || EnsureRunning(cfg, s, e.pid, e.separator).None? {
        AttachRefused(cfg, s, e);
        RefusedDoesNotResume(cfg, s, e);
      } else {
        EnsureRunningWarm(cfg, s, e.pid, e.separator);
        AttachFields(cfg, s, e);
        if Suspends(cfg, s, e) {
          SuspendedFields(cfg, s, e);
        }
      }
    } else {
      OtherWarm(cfg, s, e);
    }
  }

  lemma FlushIsNoAttach(s: Session, e: Event)
    requires FlushedBy(s, e).Some?
    ensures !e.EvAttachString? && !e.EvAttachChunk?
  {
  }

  lemma SuspendedFields(cfg: Config, s: Session, e: Event)
    requires e.EvAttachChunk? && EnsureRunning(cfg, s, e.pid, e.separator).Some?
    ensures var r := EnsureRunning(cfg, s, e.pid, e.separator).value;
            var t := Suspend(cfg, r, e.c, e.dims);
            && t.warm == BuildReplay(r.warm, TailFor(cfg, s, e), e.dims)
            && t.replay == Some(OpenReplay(r.warm, TailFor(cfg, s, e), e.dims))
  {
    hide EnsureRunning, ReadTail, BuildReplay, OpenReplay, DiskFlush;
  }

  /** The cases in which a chunk attach has to wait for a full replay. */
  predicate NeedsReplay(cfg: Config, ring: Option<Ring>, disk: Disk, caps: Capabilities) {
    caps.binary &&
    if caps.chunkedReplay && ParseLastSeen(caps.lastSeen).Some? then ReadSince(ring, ParseLastSeen(caps.lastSeen)).Full?
    else ReadTail(disk, cfg.limits) != []
  }

  lemma SuspendsIff(cfg: Config, s: Session, e: Event)
    requires e.EvAttachChunk?
    ensures var running := EnsureRunning(cfg, s, e.pid, e.separator);
            Suspends(cfg, s, e) <==>
              s.attaching.None? && running.Some? && NeedsReplay(cfg, running.value.ring, running.value.disk, e.caps)
  {
    hide EnsureRunning, RegisterChunk, ReadSince, TagAll, ParseLastSeen, ReadTail, DiskFlush, BuildReplay, OpenReplay;
    var running := EnsureRunning(cfg, s, e.pid, e.separator);
    EnsureRunningMakesRunning(cfg, s, e.pid, e.separator);
    if running.Some? {
      var r := running.value;
      var decision := ReadSince(r.ring, ParseLastSeen(e.caps.lastSeen));
      NoCursorNoFull(r.ring);
      StillWaiting(r, e.c, []);
      StillWaiting(FlushLog(cfg, r), e.c, []);
      if decision.Delta? {
        StillWaiting(r, e.c, TagAll(r.generation, decision.chunks));
      }
    }
  }

  lemma StillWaiting(s: Session, c: ClientId, frames: seq<Frame>)
    ensures RegisterChunk(s, c, frames).attaching == s.attaching
  {
    hide ShouldPause;
  }

  lemma NoCursorNoFull(ring: Option<Ring>)
    ensures ReadSince(ring, None).NoReplay?
  {
  }

  lemma AutoResumeIgnoresWarm(cfg: Config, s: Session, pid: nat, separator: string)
    ensures var r, q := AutoResume(cfg, s, pid, separator), AutoResume(cfg, s.(warm := None), pid, separator);
            r.ring == q.ring && r.disk == q.disk
  {
    hide DiskAppend, Encode, WriteReplay, WriteWarm;
  }

  lemma EnsureRunningIgnoresWarm(cfg: Config, s: Session, pid: nat, separator: string)
    ensures var r, q := EnsureRunning(cfg, s, pid, separator), EnsureRunning(cfg, s.(warm := None), pid, separator);
            && (r.Some? <==> q.Some?)
            && (r.Some? ==> r.value.ring == q.value.ring && r.value.disk == q.value.disk)
  {
    hide AutoResume, IsAutoResumable;
    AutoResumeIgnoresWarm(cfg, s, pid, separator);
  }

  /** Which operations they are does not depend on the terminal. */
  lemma OpsIgnoreWarm(cfg: Config, s: Session, id: SC.Id, e: Event, first: Stamp, second: Stamp)
    ensures OwnOps(cfg, s.(warm := None), id, e, first, second) == OwnOps(cfg, s, id, e, first, second)
    ensures StepsTo(cfg, s.(warm := None), e, None) == StepsTo(cfg, s, e, None)
    ensures Suspends(cfg, s.(warm := None), e) <==> Suspends(cfg, s, e)
    ensures Suspends(cfg, s, e) ==> TailFor(cfg, s.(warm := None), e) == TailFor(cfg, s, e)
    ensures WrittenTo(s.(warm := None), e, None) == WrittenTo(s, e, None)
  {
    hide Suspends, Encode, EnsureRunning, ReadTail, NeedsReplay, IsAutoResumable;
    OnlyChunksSuspend(cfg, s, e);
    OnlyChunksSuspend(cfg, s.(warm := None), e);
    if e.EvAttachChunk? {
      SuspendsIff(cfg, s, e);
      SuspendsIff(cfg, s.(warm := None), e);
      EnsureRunningIgnoresWarm(cfg, s, e.pid, e.separator);
    }
  }

  lemma OnlyChunksSuspend(cfg: Config, s: Session, e: Event)
    ensures Suspends(cfg, s, e) ==> e.EvAttachChunk?
  {
  }

  // ---------------------------------------------------------------- the session's operations on the cache

  /** The terminal survives to the end of the operations: none of them finds it expired. */
  predicate Lasts(es: Cache, ops: seq<WS.CacheOp>, maxSessions: nat)
    decreases |ops|
  {
    ops == [] ||
    (!ops[0].Forget? && WS.Found(es, ops[0]).Some? && Lasts(WS.CacheStep(es, ops[0], maxSessions), ops[1..], maxSessions))
  }

  /** Operations of session `id`: writes, and a replay at most as the last one. */
  predicate OwnShape(ops: seq<WS.CacheOp>, id: SC.Id) {
    forall i :: 0 <= i < |ops| ==> ops[i].id == id && !ops[i].Forget? && (ops[i].Write? || i == |ops| - 1)
  }

  lemma OwnOpsShape(cfg: Config, s: Session, id: SC.Id, e: Event, first: Stamp, second: Stamp)
    ensures OwnShape(OwnOps(cfg, s, id, e, first, second), id)
  {
    hide Suspends, TailFor, Encode, WrittenBy;
  }

  lemma OwnOpsInOrder(cfg: Config, s: Session, id: SC.Id, e: Event, first: Stamp, second: Stamp, now: int)
    requires now <= first.now <= second.now
    ensures var ops := OwnOps(cfg, s, id, e, first, second);
            WS.InOrder(ops, now) && WS.ClockAfter(ops, now) <= second.now
  {
    hide Suspends, TailFor, Encode, WrittenBy;
    OneOfEach(WriteOps(s, e, id, first), ReplayOps(cfg, s, e, id, second), first.now, second.now, now);
  }

  lemma OneOfEach(a: seq<WS.CacheOp>, b: seq<WS.CacheOp>, first: int, second: int, now: int)
    requires |a| <= 1 && (a != [] ==> a[0].Write? && a[0].now == first)
    requires |b| <= 1 && (b != [] ==> b[0].Replay? && b[0].now == second)
    requires now <= first <= second
    ensures WS.InOrder(a + b, now) && WS.ClockAfter(a + b, now) <= second
  {
    AtMostOne(b, first, second);
    AtMostOne(b, now, second);
    if a == [] {
      assert a + b == b;
    } else {
      assert (a + b)[1..] == b && (a + b)[0] == a[0];
    }
  }

  lemma AtMostOne(b: seq<WS.CacheOp>, now: int, second: int)
    requires |b| <= 1 && (b != [] ==> b[0].Replay? && b[0].now == second) && now <= second
    ensures WS.InOrder(b, now) && WS.ClockAfter(b, now) <= second
  {
    assert b != [] ==> b[1..] == [];
  }

  lemma ShapeLater(ops: seq<WS.CacheOp>, id: SC.Id)
    requires OwnShape(ops, id) && ops != []
    ensures ops[0].id == id && !ops[0].Forget? && (ops[0].Write? || ops[1..] == []) && OwnShape(ops[1..], id)
  {
  }

  /** On the cache they do what the session's steps make of the terminal; if one of them finds it
      expired, what they make of none. */
  lemma {:induction false} OwnRun(es: Cache, ops: seq<WS.CacheOp>, maxSessions: nat, now: int, id: SC.Id)
    requires WS.Sound(es, maxSessions) && WS.ClockAt(es, now) && WS.InOrder(ops, now) && OwnShape(ops, id)
    ensures WS.WarmOf(WS.CacheRun(es, ops, maxSessions), id) ==
              OwnAll(if Lasts(es, ops, maxSessions) then WS.WarmOf(es, id) else None, ops)
    decreases |ops|
  {
    hide WS.Sound, WS.CacheStep, WS.ClockAt, WS.WarmOf, WS.Found, OwnShape, WS.Refines;
    if ops != [] {
      var fs := WS.CacheStep(es, ops[0], maxSessions);
      ShapeLater(ops, id);
      WS.LaterClock(es, now, ops[0].now);
      WS.OwnOperation(es, ops[0], maxSessions);
      WS.StepClock(es, ops[0], maxSessions, now);
      WS.CacheRefinesWarm(es, ops[0], maxSessions, id);
      OwnRun(fs, ops[1..], maxSessions, ops[0].now, id);
    }
  }

  // ---------------------------------------------------------------- side by side

  datatype System = System(session: Session, cache: Cache)

  function JointOps(cfg: Config, s: Session, id: SC.Id, j: Joint): seq<WS.CacheOp> {
    match j
    case Own(e, first, second) => OwnOps(cfg, s, id, e, first, second)
    case Other(op) => [op]
  }

  /** The events that explain a joint step to the session's state machine: its own event, preceded by a
      drop if it finds the terminal expired; a drop, if another session's operation took it. */
  function EventsFor(cfg: Config, sys: System, id: SC.Id, maxSessions: nat, j: Joint): seq<Event> {
    var ops := JointOps(cfg, sys.session, id, j);
    match j
    case Own(e, _, _) => if Lasts(sys.cache, ops, maxSessions) then [e] else [EvCacheDrop, e]
    case Other(_) => if WS.WarmOf(WS.CacheRun(sys.cache, ops, maxSessions), id).Some? then [] else [EvCacheDrop]
  }

  function JointStep(cfg: Config, sys: System, id: SC.Id, maxSessions: nat, j: Joint): System {
    System(Run(cfg, sys.session, EventsFor(cfg, sys, id, maxSessions, j)),
           WS.CacheRun(sys.cache, JointOps(cfg, sys.session, id, j), maxSessions))
  }

  function JointRun(cfg: Config, sys: System, id: SC.Id, maxSessions: nat, js: seq<Joint>): System
    decreases |js|
  {
    if js == [] then sys else JointRun(cfg, JointStep(cfg, sys, id, maxSessions, js[0]), id, maxSessions, js[1..])
  }

  function Explained(cfg: Config, sys: System, id: SC.Id, maxSessions: nat, js: seq<Joint>): seq<Event>
    decreases |js|
  {
    if js == [] then []
    else EventsFor(cfg, sys, id, maxSessions, js[0]) +
         Explained(cfg, JointStep(cfg, sys, id, maxSessions, js[0]), id, maxSessions, js[1..])
  }

  /** The session's terminal is the cache's entry. */
  ghost predicate Agrees(cfg: Config, sys: System, id: SC.Id, maxSessions: nat, now: int) {
    && Inv(cfg, sys.session) && sys.session.warm == WS.WarmOf(sys.cache, id)
    && WS.Sound(sys.cache, maxSessions) && WS.ClockAt(sys.cache, now)
  }

  /** Under a clock that does not go back the session takes its own steps, the others act on their own
      entries. */
  predicate Fair(js: seq<Joint>, id: SC.Id, now: int)
    decreases |js|
  {
    js == [] ||
    match js[0]
    case Own(e, first, second) =>
      !e.EvCacheDrop? && now <= first.now <= second.now && Fair(js[1..], id, second.now)
    case Other(op) =>
      op.id != id && if op.Forget? then Fair(js[1..], id, now) else now <= op.now && Fair(js[1..], id, op.now)
  }

  function TimeAfter(j: Joint, now: int): int {
    match j
    case Own(_, _, second) => second.now
    case Other(op) => if op.Forget? then now else op.now
  }

  /** A session begins in agreement with any cache that holds nothing of it. */
  lemma BeginsInAgreement(cfg: Config, command: Command, disk: Disk, generation: nat, recorded: Option<EndReason>,
                          isDaemon: bool, wasGraceful: bool, cache: Cache, id: SC.Id, maxSessions: nat, now: int)
    requires DiskInv(disk, cfg.limits) && WS.Sound(cache, maxSessions) && WS.ClockAt(cache, now) && !SC.Has(cache, id)
    ensures Agrees(cfg, System(Created(command, disk), cache), id, maxSessions, now)
    ensures Agrees(cfg, System(Loaded(command, disk, generation, recorded, isDaemon, wasGraceful), cache), id, maxSessions, now)
  {
    InitialInv(cfg, command, disk, generation, recorded, isDaemon, wasGraceful);
    hide Inv, DiskInv;
  }

  lemma FoldOps(cfg: Config, s: Session, w: Option<Warm>, id: SC.Id, e: Event, first: Stamp, second: Stamp)
    ensures OwnAll(w, OwnOps(cfg, s, id, e, first, second)) == StepsTo(cfg, s, e, w)
  {
    OnlyChunksSuspend(cfg, s, e);
    hide Suspends, TailFor, Encode, WrittenBy, BuildReplay, WriteWarm;
    var a, b := WriteOps(s, e, id, first), ReplayOps(cfg, s, e, id, second);
    FoldReplay(cfg, s, e, WrittenTo(s, e, w), id, second);
    if a == [] {
      assert a + b == b;
    } else {
      assert (a + b)[1..] == b && (a + b)[0] == a[0];
    }
  }

  lemma FoldReplay(cfg: Config, s: Session, e: Event, w: Option<Warm>, id: SC.Id, second: Stamp)
    ensures OwnAll(w, ReplayOps(cfg, s, e, id, second)) ==
              if Suspends(cfg, s, e) then BuildReplay(w, TailFor(cfg, s, e), e.dims) else w
  {
    OnlyChunksSuspend(cfg, s, e);
    hide Suspends, TailFor, BuildReplay;
    var b := ReplayOps(cfg, s, e, id, second);
    assert b != [] ==> b[1..] == [];
  }

  lemma OwnStepAgrees(cfg: Config, sys: System, id: SC.Id, maxSessions: nat, now: int, j: Joint)
    requires Agrees(cfg, sys, id, maxSessions, now) && j.Own? && !j.e.EvCacheDrop? && now <= j.first.now <= j.second.now
    ensures var t := JointStep(cfg, sys, id, maxSessions, j);
            Inv(cfg, t.session) && t.session.warm == WS.WarmOf(t.cache, id)
  {
    hide Inv, Step, Run, WS.Sound, WS.CacheStep, WS.CacheRun, WS.ClockAt, WS.WarmOf, OwnOps, Lasts, StepsTo, OwnShape;
    var s, ops := sys.session, OwnOps(cfg, sys.session, id, j.e, j.first, j.second);
    OwnOpsShape(cfg, s, id, j.e, j.first, j.second);
    OwnOpsInOrder(cfg, s, id, j.e, j.first, j.second, now);
    OwnRun(sys.cache, ops, maxSessions, now, id);
    var lasts := Lasts(sys.cache, ops, maxSessions);
    var q := if lasts then s else s.(warm := None);
    assert Inv(cfg, q) by { DropWarmKeeps(cfg, s); }
    OpsIgnoreWarm(cfg, s, id, j.e, j.first, j.second);
    StepWarm(cfg, q, j.e);
    FoldOps(cfg, s, q.warm, id, j.e, j.first, j.second);
    StepKeepsInv(cfg, q, j.e);
    DropThen(cfg, s, j.e);
  }

  lemma DropThen(cfg: Config, s: Session, e: Event)
    ensures Run(cfg, s, [e]) == Step(cfg, s, e)
    ensures Run(cfg, s, [EvCacheDrop, e]) == Step(cfg, s.(warm := None), e)
    ensures Run(cfg, s, [EvCacheDrop]) == s.(warm := None)
  {
    assert Step(cfg, s, EvCacheDrop) == s.(warm := None);
    RunOfTwo(cfg, s, [EvCacheDrop, e]);
    RunOfOne(cfg, s, e);
    RunOfOne(cfg, s, EvCacheDrop);
    hide *;
  }

  lemma OtherStepAgrees(cfg: Config, sys: System, id: SC.Id, maxSessions: nat, now: int, j: Joint)
    requires Agrees(cfg, sys, id, maxSessions, now) && j.Other? && j.op.id != id && (!j.op.Forget? ==> now <= j.op.now)
    ensures var t := JointStep(cfg, sys, id, maxSessions, j);
            Inv(cfg, t.session) && t.session.warm == WS.WarmOf(t.cache, id)
  {
    hide Inv, Step, WS.Sound, WS.CacheStep, WS.ClockAt, WS.WarmOf;
    var ops := [j.op];
    var fs := WS.CacheStep(sys.cache, j.op, maxSessions);
    assert ops[1..] == [] && WS.CacheRun(fs, [], maxSessions) == fs;
    assert WS.CacheRun(sys.cache, ops, maxSessions) == fs;
    if j.op.Replay? {
      WS.LaterClock(sys.cache, now, j.op.now);
    }
    WS.CacheRefinesWarm(sys.cache, j.op, maxSessions, id);
    assert WS.WarmOf(fs, id) == WS.WarmOf(sys.cache, id) || WS.WarmOf(fs, id) == None;
    DropWarmKeeps(cfg, sys.session);
    DropThen(cfg, sys.session, EvCacheDrop);
  }

  lemma JointStepAgrees(cfg: Config, sys: System, id: SC.Id, maxSessions: nat, now: int, js: seq<Joint>)
    requires Agrees(cfg, sys, id, maxSessions, now) && js != [] && Fair(js, id, now)
    ensures Agrees(cfg, JointStep(cfg, sys, id, maxSessions, js[0]), id, maxSessions, TimeAfter(js[0], now))
    ensures Fair(js[1..], id, TimeAfter(js[0], now))
  {
    hide Inv, Run, WS.Sound, WS.CacheStep, WS.ClockAt, WS.WarmOf, OwnOps, EventsFor, WS.CacheRun;
    var ops := JointOps(cfg, sys.session, id, js[0]);
    if js[0].Own? {
      OwnStepAgrees(cfg, sys, id, maxSessions, now, js[0]);
      OwnOpsInOrder(cfg, sys.session, id, js[0].e, js[0].first, js[0].second, now);
    } else {
      OtherStepAgrees(cfg, sys, id, maxSessions, now, js[0]);
      assert WS.InOrder(ops, now) && WS.ClockAfter(ops, now) == TimeAfter(js[0], now) by {
        assert ops[1..] == [];
      }
    }
    WS.CacheRunKeeps(sys.cache, ops, maxSessions, now);
    WS.LaterClock(WS.CacheRun(sys.cache, ops, maxSessions), WS.ClockAfter(ops, now), TimeAfter(js[0], now));
  }

  // ---------------------------------------------------------------- what the snapshot reads

  /** What a replay finds once the operations `a` of the same step are done. */
  lemma FoundAtReplay(es: Cache, a: seq<WS.CacheOp>, b: WS.CacheOp, maxSessions: nat, now: int, id: SC.Id)
    requires WS.Sound(es, maxSessions) && WS.ClockAt(es, now)
    requires b.Replay? && b.id == id && |a| <= 1 && (a != [] ==> a[0].Write? && a[0].id == id)
    requires WS.InOrder(a + [b], now)
    ensures WS.Found(WS.CacheRun(es, a, maxSessions), b) ==
              OwnAll(if Lasts(es, a + [b], maxSessions) then WS.WarmOf(es, id) else None, a)
  {
    hide WS.Sound, WS.CacheStep, WS.ClockAt, WS.WarmOf, WS.Found, WS.Refines;
    var ops := a + [b];
    if a == [] {
      assert ops[0] == b && ops[1..] == [];
      WS.LaterClock(es, now, b.now);
      WS.OwnOperation(es, b, maxSessions);
    } else {
      assert ops[0] == a[0] && ops[1..] == [b] && ops[1..][1..] == [] && a[1..] == [];
      var fs := WS.CacheStep(es, a[0], maxSessions);
      WS.OwnOperation(es, a[0], maxSessions);
      WS.StepClock(es, a[0], maxSessions, now);
      WS.CacheRefinesWarm(es, a[0], maxSessions, id);
      WS.LaterClock(fs, a[0].now, b.now);
      WS.OwnOperation(fs, b, maxSessions);
      assert WS.CacheRun(es, a, maxSessions) == WS.CacheRun(fs, a[1..], maxSessions) == fs;
      assert Lasts(es, ops, maxSessions) <==> WS.Found(es, a[0]).Some? && Lasts(fs, ops[1..], maxSessions);
      assert Lasts(fs, ops[1..], maxSessions) <==> WS.Found(fs, b).Some?;
      var w := if Lasts(es, ops, maxSessions) then WS.WarmOf(es, id) else None;
      assert OwnAll(w, a) == OwnAll(WS.OwnStep(w, a[0]), a[1..]) == WriteWarm(w, a[0].data);
    }
  }

  lemma AnswersAreFinds(es: Cache, op: WS.CacheOp)
    requires op.Replay?
    ensures var shown := SC.Shown(es, op.id, Some(op.dims), op.cutoff);
            OpenReplay(WS.Found(es, op), op.tail, op.dims) ==
              if shown.Some? then Replay(shown.value.input, false) else Replay(op.tail, op.tail != [])
  {
  }

  lemma FoldWrites(s: Session, e: Event, id: SC.Id, stamp: Stamp, w: Option<Warm>)
    ensures OwnAll(w, WriteOps(s, e, id, stamp)) == WrittenTo(s, e, w)
    ensures |WriteOps(s, e, id, stamp)| <= 1
  {
    hide WrittenBy, Encode;
    var a := WriteOps(s, e, id, stamp);
    assert a != [] ==> a[1..] == [];
  }

  /** What a full replay starts from is what the cache answered: the warm terminal it showed, or else
      the log's tail. */
  lemma ReplayIsTheAnswer(cfg: Config, sys: System, id: SC.Id, maxSessions: nat, now: int, j: Joint)
    requires Agrees(cfg, sys, id, maxSessions, now) && j.Own? && now <= j.first.now <= j.second.now
    requires Suspends(cfg, sys.session, j.e)
    ensures j.e.EvAttachChunk?
    ensures var s, tail := sys.session, TailFor(cfg, sys.session, j.e);
            var before := WS.CacheRun(sys.cache, WriteOps(s, j.e, id, j.first), maxSessions);
            var shown := SC.Shown(before, id, Some(j.e.dims), j.second.cutoff);
            JointStep(cfg, sys, id, maxSessions, j).session.replay ==
              Some(if shown.Some? then Replay(shown.value.input, false) else Replay(tail, tail != []))
  {
    OnlyChunksSuspend(cfg, sys.session, j.e);
    var s, a := sys.session, WriteOps(sys.session, j.e, id, j.first);
    var b := WS.CacheOp.Replay(id, TailFor(cfg, s, j.e), j.e.dims, j.second.cutoff, j.second.now);
    assert OwnOps(cfg, s, id, j.e, j.first, j.second) == a + [b];
    hide Inv, Step, Run, WS.Sound, WS.CacheStep, WS.CacheRun, WS.ClockAt, WS.WarmOf, Suspends, TailFor, WrittenBy, Lasts,
         OwnAll, StepsTo, OpenReplay, WS.Found, SC.Shown, Encode;
    OwnOpsInOrder(cfg, s, id, j.e, j.first, j.second, now);
    var lasts := Lasts(sys.cache, a + [b], maxSessions);
    FoldWrites(s, j.e, id, j.first, if lasts then s.warm else None);
    FoundAtReplay(sys.cache, a, b, maxSessions, now, id);
    AnswersAreFinds(WS.CacheRun(sys.cache, a, maxSessions), b);
    var q := if lasts then s else s.(warm := None);
    assert Inv(cfg, q) by { DropWarmKeeps(cfg, s); }
    OpsIgnoreWarm(cfg, s, id, j.e, j.first, j.second);
    StepWarm(cfg, q, j.e);
    DropThen(cfg, s, j.e);
  }

  // ---------------------------------------------------------------- every joint run

  function OwnEvents(js: seq<Joint>): seq<Event>
    decreases |js|
  {
    if js == [] then [] else (if js[0].Own? then [js[0].e] else []) + OwnEvents(js[1..])
  }

  function WithoutDrops(es: seq<Event>): seq<Event>
    decreases |es|
  {
    if es == [] then [] else (if es[0].EvCacheDrop? then [] else [es[0]]) + WithoutDrops(es[1..])
  }

  lemma {:induction false} WithoutDropsJoins(a: seq<Event>, b: seq<Event>)
    ensures WithoutDrops(a + b) == WithoutDrops(a) + WithoutDrops(b)
    decreases |a|
  {
    if a == [] {
      assert a + b == b;
    } else {
      var first: seq<Event> := if a[0].EvCacheDrop? then [] else [a[0]];
      WithoutDropsJoins(a[1..], b);
      assert (a + b)[1..] == a[1..] + b;
      assert first + (WithoutDrops(a[1..]) + WithoutDrops(b)) == first + WithoutDrops(a[1..]) + WithoutDrops(b);
    }
  }

  lemma EventsWithoutDrops(cfg: Config, sys: System, id: SC.Id, maxSessions: nat, j: Joint)
    requires j.Own? ==> !j.e.EvCacheDrop?
    ensures WithoutDrops(EventsFor(cfg, sys, id, maxSessions, j)) == if j.Own? then [j.e] else []
  {
    hide Lasts, OwnOps, WS.WarmOf, WS.CacheRun;
    if j.Own? {
      var one, two := [j.e], [EvCacheDrop, j.e];
      assert one[1..] == [] && two[1..] == one;
      assert WithoutDrops(one) == [j.e] && WithoutDrops(two) == WithoutDrops(one);
    } else {
      var one: seq<Event> := [EvCacheDrop];
      assert one[1..] == [];
    }
  }

  /** Main result: the session with its real, shared cache runs as its state machine does. Over every
      joint run under a clock that does not go back the session's terminal is the cache's entry; and
      what the session does is a run of its state machine over its own events with drops in between.
      So every theorem about runs of a session holds of a session that shares the cache. */
  lemma {:induction false} CacheIsExplained(cfg: Config, sys: System, id: SC.Id, maxSessions: nat, now: int, js: seq<Joint>)
    requires Agrees(cfg, sys, id, maxSessions, now) && Fair(js, id, now)
    ensures var u, es := JointRun(cfg, sys, id, maxSessions, js), Explained(cfg, sys, id, maxSessions, js);
            && u.session.warm == WS.WarmOf(u.cache, id) && |u.cache| <= maxSessions
            && u.session == Run(cfg, sys.session, es) && WithoutDrops(es) == OwnEvents(js)
    decreases |js|
  {
    hide Inv, WS.WarmOf, EventsFor, JointStep;
    if js != [] {
      var t := JointStep(cfg, sys, id, maxSessions, js[0]);
      var es := EventsFor(cfg, sys, id, maxSessions, js[0]);
      var later := Explained(cfg, t, id, maxSessions, js[1..]);
      JointStepAgrees(cfg, sys, id, maxSessions, now, js);
      CacheIsExplained(cfg, t, id, maxSessions, TimeAfter(js[0], now), js[1..]);
      EventsWithoutDrops(cfg, sys, id, maxSessions, js[0]);
      WithoutDropsJoins(es, later);
      assert t.session == Run(cfg, sys.session, es) by { JointSession(cfg, sys, id, maxSessions, js[0]); }
      RunPrefix(cfg, sys.session, es + later, |es|);
      assert (es + later)[..|es|] == es && (es + later)[|es|..] == later;
    }
  }

  lemma JointSession(cfg: Config, sys: System, id: SC.Id, maxSessions: nat, j: Joint)
    ensures JointStep(cfg, sys, id, maxSessions, j).session == Run(cfg, sys.session, EventsFor(cfg, sys, id, maxSessions, j))
  {
    hide EventsFor, Run;
  }
}
