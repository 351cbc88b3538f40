/** What a full replay costs. The client is registered only when the snapshot has been taken, so what
    is flushed in between reaches it in one of two ways, or not at all: while the first write into a
    rebuilt terminal is in flight a batch still joins what the snapshot reads; later, and on the warm
    path from the beginning, it does not. */
module PtySessionReplay {
  import opened Wrappers
  import opened Utf8
  import opened ScrollbackSpec
  import opened SessionPolicy
  import opened PtySession
  import opened PtySessionInvariant
  import opened PtySessionEffect
  import opened PtySessionOutput

  /** What is flushed now joins the terminal that is going to be serialized. */
  predicate Captures(s: Session) {
    ReplayOpen(s) && s.warm.Some?
  }

  function CapturedBy(s: Session, e: Event): seq<string> {
    if FlushedBy(s, e).Some? && Captures(s) then [FlushedBy(s, e).value] else []
  }

  function MissedBy(s: Session, e: Event): seq<string> {
    if FlushedBy(s, e).Some? && !Captures(s) then [FlushedBy(s, e).value] else []
  }

  /** The batches that joined the replay while it was awaited. */
  function Captured(cfg: Config, s: Session, es: seq<Event>): seq<string>
    decreases |es|
  {
    if es == [] then [] else CapturedBy(s, es[0]) + Captured(cfg, Step(cfg, s, es[0]), es[1..])
  }

  /** The batches that came too late for it. */
  function Missed(cfg: Config, s: Session, es: seq<Event>): seq<string>
    decreases |es|
  {
    if es == [] then [] else MissedBy(s, es[0]) + Missed(cfg, Step(cfg, s, es[0]), es[1..])
  }

  predicate NoFinish(es: seq<Event>) {
    forall i :: 0 <= i < |es| ==> !es[i].EvFinishAttach?
  }

  lemma NoFinishLater(es: seq<Event>)
    requires NoFinish(es) && es != []
    ensures !es[0].EvFinishAttach? && NoFinish(es[1..])
  {
  }

  // ---------------------------------------------------------------- one step of the wait

  /** What one step does to an awaited replay. */
  ghost predicate Waits(s: Session, e: Event, t: Session) {
    && t.attaching == s.attaching && t.generation == s.generation
    && s.replay.Some? && t.replay.Some?
    && BatchesOf(t) == BatchesOf(s) + CapturedBy(s, e) + MissedBy(s, e)
    && t.replay.value.input == s.replay.value.input + Flat(EncodeEach(CapturedBy(s, e)))
    && (!Captures(s) ==> !Captures(t))
    && (MissedBy(s, e) != [] ==> !Captures(s))
    && (!Captures(s) ==> CapturedBy(s, e) == [])
  }

  lemma FlushWaits(cfg: Config, s: Session, e: Event)
    requires s.replay.Some? && FlushedBy(s, e).Some?
    ensures Waits(s, e, Step(cfg, s, e))
  {
    hide DiskAppend, Encode, RingAppend, Deliver, EncodeEach, Flat;
    var i, b := s.replay.value.input, FlushedBy(s, e).value;
    FlatEncodeOne(b);
    assert i + [] == i;
    assert BatchesOf(s) + [b] + [] == BatchesOf(s) + [b] == BatchesOf(s) + [] + [b];
  }

  /** The replay is as it was, but perhaps closed, and the terminal still there or dropped. */
  ghost predicate Stays(s: Session, t: Session) {
    && s.replay.Some? && t.replay.Some? && t.replay.value.input == s.replay.value.input
    && (t.warm.Some? ==> s.warm.Some?) && (ReplayOpen(t) ==> ReplayOpen(s))
  }

  lemma ReplayStays(cfg: Config, s: Session, e: Event)
    requires s.attaching.Some? && s.replay.Some? && FlushedBy(s, e).None? && !e.EvFinishAttach?
    ensures Stays(s, Step(cfg, s, e))
  {
    if e.EvAttachString? || e.EvAttachChunk? {
      AttachRefused(cfg, s, e);
    } else if e.EvDetach? || e.EvSetFlow? {
      PauseStays(cfg, s, e);
    } else if e.EvFlush? {
      StaleFlushStays(cfg, s, e);
    } else {
      OtherStays(cfg, s, e);
    }
    hide Step, FlushedBy;
  }

  lemma PauseStays(cfg: Config, s: Session, e: Event)
    requires s.replay.Some? && (e.EvDetach? || e.EvSetFlow?)
    ensures Stays(s, Step(cfg, s, e))
  {
    hide ShouldPause;
  }

  lemma OtherStays(cfg: Config, s: Session, e: Event)
    requires s.replay.Some? && s.attaching.Some?
    requires !e.EvAttachString? && !e.EvAttachChunk? && !e.EvFlush? && !e.EvDetach? && !e.EvSetFlow? && !e.EvFinishAttach?
    ensures Stays(s, Step(cfg, s, e))
  {
    hide DiskFlush, DiskStep, Flush, AttachString, AttachChunk, Detach, SetFlow, FinishAttach;
  }

  lemma StaleFlushStays(cfg: Config, s: Session, e: Event)
    requires s.replay.Some? && e.EvFlush? && FlushedBy(s, e).None?
    ensures Stays(s, Step(cfg, s, e))
  {
    hide Broadcast;
  }

  lemma OtherWaits(cfg: Config, s: Session, e: Event)
    requires Inv(cfg, s) && s.attaching.Some? && s.replay.Some? && FlushedBy(s, e).None? && !e.EvFinishAttach?
    ensures Waits(s, e, Step(cfg, s, e))
  {
    hide Inv, Step, BatchesOf, FlushedBy, LifeEffect, HistoryEffect, ClientsEffect, EncodeEach, Flat;
    ReplayStays(cfg, s, e);
    StepIsQuiet(cfg, s, e);
    StepEffect(cfg, s, e);
    FlatEncodeOne("");
    assert BatchesOf(s) + [] + [] == BatchesOf(s) && s.replay.value.input + [] == s.replay.value.input;
  }

  lemma StepWaits(cfg: Config, s: Session, e: Event)
    requires Inv(cfg, s) && s.attaching.Some? && s.replay.Some? && !e.EvFinishAttach?
    ensures Waits(s, e, Step(cfg, s, e))
  {
    hide Inv, Step, Waits, FlushedBy;
    if FlushedBy(s, e).Some? {
      FlushWaits(cfg, s, e);
    } else {
      OtherWaits(cfg, s, e);
    }
  }

  lemma EncodeEachJoins(a: seq<string>, b: seq<string>)
    ensures EncodeEach(a + b) == EncodeEach(a) + EncodeEach(b)
    ensures Flat(EncodeEach(a + b)) == Flat(EncodeEach(a)) + Flat(EncodeEach(b))
  {
    assert EncodeEach(a + b) == EncodeEach(a) + EncodeEach(b);
    FlatConcat(EncodeEach(a), EncodeEach(b));
  }

  lemma FlatEncodeOne(x: string)
    ensures EncodeEach([x]) == [Encode(x)] && Flat(EncodeEach([x])) == Encode(x)
    ensures EncodeEach([]) == [] && Flat(EncodeEach([])) == []
  {
    assert EncodeEach([x]) == [Encode(x)];
    FlatOne(Encode(x));
  }

  /** Over any wait the batches flushed split into those that joined the replay, and then those that
      came too late; the replay has grown by exactly the former. */
  lemma {:induction false} WaitAccount(cfg: Config, s: Session, es: seq<Event>)
    requires Inv(cfg, s) && s.attaching.Some? && s.replay.Some? && NoFinish(es)
    ensures var m := Run(cfg, s, es);
            && m.attaching == s.attaching && m.generation == s.generation && m.replay.Some?
            && BatchesOf(m) == BatchesOf(s) + Captured(cfg, s, es) + Missed(cfg, s, es)
            && m.replay.value.input == s.replay.value.input + Flat(EncodeEach(Captured(cfg, s, es)))
            && (!Captures(s) ==> Captured(cfg, s, es) == [])
    decreases |es|
  {
    hide Inv, Step, BatchesOf, CapturedBy, MissedBy, EncodeEach, Captures, Flat;
    if es == [] {
      FlatEncodeOne("");
      assert BatchesOf(s) + [] + [] == BatchesOf(s) && s.replay.value.input + [] == s.replay.value.input;
    } else {
      var e, t := es[0], Step(cfg, s, es[0]);
      NoFinishLater(es);
      StepWaits(cfg, s, e);
      StepKeepsInv(cfg, s, e);
      WaitAccount(cfg, t, es[1..]);
      AccountJoins(BatchesOf(s), s.replay.value.input, CapturedBy(s, e), MissedBy(s, e), Captured(cfg, t, es[1..]),
                   Missed(cfg, t, es[1..]));
    }
  }

  lemma AccountJoins(batches: seq<string>, input: Bytes, c: seq<string>, m: seq<string>, captured: seq<string>,
                     missed: seq<string>)
    requires m != [] ==> captured == []
    ensures batches + c + m + captured + missed == batches + (c + captured) + (m + missed)
    ensures input + Flat(EncodeEach(c)) + Flat(EncodeEach(captured)) == input + Flat(EncodeEach(c + captured))
  {
    hide EncodeEach;
    EncodeEachJoins(c, captured);
    ConcatAssociates(input, Flat(EncodeEach(c)), Flat(EncodeEach(captured)));
    if m == [] {
      assert batches + c + [] + captured + missed == batches + (c + captured) + ([] + missed);
    } else {
      assert batches + c + m + [] + missed == batches + (c + []) + (m + missed);
    }
  }

  // ---------------------------------------------------------------- when nothing is lost

  /** Step `i` flushes a batch of the current process after the replay's input is fixed. */
  predicate MissesAt(cfg: Config, s: Session, es: seq<Event>, i: nat)
    requires i < |es|
  {
    var p := Run(cfg, s, es[..i]);
    FlushedBy(p, es[i]).Some? && !Captures(p)
  }

  lemma MissesLater(cfg: Config, s: Session, es: seq<Event>, i: nat)
    requires i + 1 < |es|
    ensures MissesAt(cfg, s, es, i + 1) <==> MissesAt(cfg, Step(cfg, s, es[0]), es[1..], i)
  {
    assert es[..i + 1][1..] == es[1..][..i];
  }

  /** Nothing is lost exactly if no scheduled flush of the current process runs after the replay's
      input is fixed. */
  lemma {:induction false} NothingMissedIff(cfg: Config, s: Session, es: seq<Event>)
    ensures Missed(cfg, s, es) == [] <==> forall i: nat :: i < |es| ==> !MissesAt(cfg, s, es, i)
    decreases |es|
  {
    if es != [] {
      assert MissedBy(s, es[0]) == [] <==> !(FlushedBy(s, es[0]).Some? && !Captures(s));
      hide Step, FlushedBy, Captures, MissedBy;
      var t := Step(cfg, s, es[0]);
      NothingMissedIff(cfg, t, es[1..]);
      assert MissesAt(cfg, s, es, 0) <==> FlushedBy(s, es[0]).Some? && !Captures(s);
      hide MissesAt;
      forall i: nat | i < |es[1..]| ensures MissesAt(cfg, s, es, i + 1) <==> MissesAt(cfg, t, es[1..], i) {
        MissesLater(cfg, s, es, i);
      }
      if !MissesAt(cfg, s, es, 0) && forall i: nat :: i < |es[1..]| ==> !MissesAt(cfg, t, es[1..], i) {
        forall i: nat | i < |es| ensures !MissesAt(cfg, s, es, i) {
          if i > 0 {
            assert MissesAt(cfg, s, es, i) <==> MissesAt(cfg, t, es[1..], i - 1) by { MissesLater(cfg, s, es, i - 1); }
          }
        }
      }
    }
  }

  // ---------------------------------------------------------------- against the log

  lemma StepLogsBatches(cfg: Config, s: Session, e: Event)
    requires Inv(cfg, s) && Step(cfg, s, e).generation == s.generation
    ensures var t := Step(cfg, s, e);
            var news := if FlushedBy(s, e).Some? then [FlushedBy(s, e).value] else [];
            BatchesOf(t) == BatchesOf(s) + news && History(t.disk) == History(s.disk) + Flat(EncodeEach(news))
  {
    hide Inv, Step, BatchesOf, FlushedBy, Encode, EncodeEach, History, DiskInv;
    assert DiskInv(s.disk, cfg.limits) by { InvDisk(cfg, s); }
    StepLogs(cfg, s, e);
    FlatEncodeOne("");
    if FlushedBy(s, e).Some? {
      FlushAddsBatch(cfg, s, e);
      FlatEncodeOne(FlushedBy(s, e).value);
    } else {
      StepIsQuiet(cfg, s, e);
      NoResumeInGeneration(cfg, s, e);
      assert BatchesOf(s) + [] == BatchesOf(s);
    }
  }

  lemma InvDisk(cfg: Config, s: Session)
    requires Inv(cfg, s)
    ensures DiskInv(s.disk, cfg.limits)
  {
    hide DiskInv;
  }

  lemma FlushAddsBatch(cfg: Config, s: Session, e: Event)
    requires FlushedBy(s, e).Some?
    ensures BatchesOf(Step(cfg, s, e)) == BatchesOf(s) + [FlushedBy(s, e).value]
  {
    hide Step, BatchesOf, FlushedBy;
    FlushReachesEveryone(cfg, s, e, 0);
  }

  /** A resume begins a new generation. */
  lemma NoResumeInGeneration(cfg: Config, s: Session, e: Event)
    requires Step(cfg, s, e).generation == s.generation && FlushedBy(s, e).None?
    ensures LoggedBy(s, e) == []
  {
    hide Step, EnsureRunning, Encode;
    if (e.EvAttachString? || e.EvAttachChunk?) && Resumes(s) {
      EnsureRunningMakesRunning(cfg, s, e.pid, e.separator);
      ResumesMeansRuns(cfg, s, e.pid, e.separator);
      AttachFields(cfg, s, e);
      assert false;
    }
  }

  lemma ResumesMeansRuns(cfg: Config, s: Session, pid: nat, separator: string)
    requires Resumes(s)
    ensures EnsureRunning(cfg, s, pid, separator).Some?
  {
    hide IsAutoResumable, AutoResume;
  }

  /** Within a generation the log grows by exactly the batches its process has had flushed. */
  lemma {:induction false} LogGrowsByBatches(cfg: Config, s: Session, es: seq<Event>)
    requires Inv(cfg, s) && Run(cfg, s, es).generation == s.generation
    ensures var u := Run(cfg, s, es);
            && BatchesOf(s) <= BatchesOf(u)
            && History(u.disk) == History(s.disk) + Flat(EncodeEach(BatchesOf(u)[|BatchesOf(s)|..]))
    decreases |es|
  {
    hide Inv, Step, BatchesOf, FlushedBy, EncodeEach, History;
    if es == [] {
      FlatEncodeOne("");
      assert BatchesOf(s)[|BatchesOf(s)|..] == [] && History(s.disk) + [] == History(s.disk);
    } else {
      var t, u := Step(cfg, s, es[0]), Run(cfg, s, es);
      GenerationBetween(cfg, s, es);
      StepLogsBatches(cfg, s, es[0]);
      StepKeepsInv(cfg, s, es[0]);
      LogGrowsByBatches(cfg, t, es[1..]);
      BatchesJoin(History(s.disk), BatchesOf(s), BatchesOf(t), BatchesOf(u));
    }
  }

  lemma {:induction false} GenerationBetween(cfg: Config, s: Session, es: seq<Event>)
    ensures Run(cfg, s, es).generation >= s.generation
    ensures es != [] && Run(cfg, s, es).generation == s.generation ==> Step(cfg, s, es[0]).generation == s.generation
    decreases |es|
  {
    hide Step;
    if es != [] {
      StepEffect(cfg, s, es[0]);
      GenerationBetween(cfg, Step(cfg, s, es[0]), es[1..]);
    }
  }

  lemma BatchesJoin(h: Bytes, a: seq<string>, b: seq<string>, c: seq<string>)
    requires a <= b <= c
    ensures h + Flat(EncodeEach(b[|a|..])) + Flat(EncodeEach(c[|b|..])) == h + Flat(EncodeEach(c[|a|..]))
  {
    assert c[|a|..] == b[|a|..] + c[|b|..];
    EncodeEachJoins(b[|a|..], c[|b|..]);
    ConcatAssociates(h, Flat(EncodeEach(b[|a|..])), Flat(EncodeEach(c[|b|..])));
  }

  /** A replay starts from the newest bytes of everything logged, and from all of it while that fits a
      tail. */
  lemma ReplayStartsFromTheLog(cfg: Config, s: Session, c: ClientId, dims: Dims)
    requires Inv(cfg, s)
    ensures var t := Suspend(cfg, s, c, dims);
            && t.replay.Some? && IsSuffix(t.replay.value.input, History(t.disk))
            && (|History(t.disk)| <= cfg.limits.tailBytes ==> t.replay.value.input == History(t.disk))
  {
    ReadTailIsTailOfHistory(s.disk, cfg.limits);
    FlushKeepsHistory(s.disk, cfg.limits);
    hide ReadTail, History, DiskFlush, IsSuffix, RingInv, SpawnInv, OriginInv, IssuedInv, TagsInv, StdinInv, ClientsInv,
         FlowInv, LifeInv, BuildReplay;
  }

  // ---------------------------------------------------------------- the whole account

  lemma WaitingMeansRunning(cfg: Config, s: Session, c: ClientId, dims: Dims, pid: nat, separator: string, caps: Capabilities)
    requires s.attaching.None? && AttachChunk(cfg, s, c, dims, pid, separator, caps).attaching.Some?
    ensures EnsureRunning(cfg, s, pid, separator).Some?
  {
    hide EnsureRunning;
  }

  lemma AttachWaits(cfg: Config, s: Session, c: ClientId, dims: Dims, pid: nat, separator: string, caps: Capabilities)
    requires Inv(cfg, s) && s.attaching.None?
    requires AttachChunk(cfg, s, c, dims, pid, separator, caps).attaching.Some?
    ensures var t := AttachChunk(cfg, s, c, dims, pid, separator, caps);
            && Inv(cfg, t) && t.attaching == Some(c) && t.replay.Some? && IsSuffix(t.replay.value.input, History(t.disk))
            && (|History(t.disk)| <= cfg.limits.tailBytes ==> t.replay.value.input == History(t.disk))
  {
    var e := EvAttachChunk(c, dims, pid, separator, caps);
    assert Step(cfg, s, e) == AttachChunk(cfg, s, c, dims, pid, separator, caps);
    assert EnsureRunning(cfg, s, pid, separator).Some? by { WaitingMeansRunning(cfg, s, c, dims, pid, separator, caps); }
    AttachFields(cfg, s, e);
    AttachChunkKeeps(cfg, s, c, dims, pid, separator, caps);
    EnsureRunningKeeps(cfg, s, pid, separator);
    hide Inv, AttachChunk, EnsureRunning, History, ReadTail, BuildReplay, OpenReplay, DiskFlush, IsSuffix;
    ReplayStartsFromTheLog(cfg, EnsureRunning(cfg, s, pid, separator).value, c, dims);
  }

  /** Main result: the account of a full replay. Let a chunk attach have to wait, let any run follow
      until its snapshot is taken and the client is registered, and any run after that. As long as
      that attach lasts, the log's history ends with what the replay's terminal was given, then the
      batches that came too late for it, then what the client's frames hold. The replay starts from
      the newest of the log and has grown by exactly the batches captured; the frames are exactly the
      batches flushed since the registration; and nothing lies in between exactly if no scheduled
      flush of the current process ran after the replay's input was fixed. */
  lemma FullReplayAccount(cfg: Config, s: Session, c: ClientId, dims: Dims, pid: nat, separator: string,
                          caps: Capabilities, es: seq<Event>, fs: seq<Event>)
    requires Inv(cfg, s) && s.attaching.None?
    requires AttachChunk(cfg, s, c, dims, pid, separator, caps).attaching.Some?
    requires NoFinish(es) && !ReplayOpen(Run(cfg, AttachChunk(cfg, s, c, dims, pid, separator, caps), es))
    ensures var t := AttachChunk(cfg, s, c, dims, pid, separator, caps);
            var m := Run(cfg, t, es);
            var u := Run(cfg, FinishAttach(m), fs);
            var missed := Missed(cfg, t, es);
            && t.replay.Some? && m.replay.Some? && m.attaching == Some(c)
            && IsSuffix(t.replay.value.input, History(t.disk))
            && BatchesOf(m) == BatchesOf(t) + Captured(cfg, t, es) + missed
            && m.replay.value.input == t.replay.value.input + Flat(EncodeEach(Captured(cfg, t, es)))
            && (!Captures(t) ==> Captured(cfg, t, es) == [])
            && (missed == [] <==> forall i: nat :: i < |es| ==> !MissesAt(cfg, t, es, i))
            && (Attached(u.clients, c, m.nextToken) ==>
                  && |BatchesOf(m)| <= |BatchesOf(u)|
                  && Datas(u.clients[c].frames) == EncodeEach(BatchesOf(u)[|BatchesOf(m)|..])
                  && IsSuffix(m.replay.value.input + Flat(EncodeEach(missed)) + Flat(Datas(u.clients[c].frames)),
                              History(u.disk)))
  {
    hide Inv, AttachChunk, Run, BatchesOf, History, IsSuffix, FinishAttach, MissesAt, Captures, Datas, EncodeEach, ReplayOpen;
    var t := AttachChunk(cfg, s, c, dims, pid, separator, caps);
    AttachWaits(cfg, s, c, dims, pid, separator, caps);
    WaitAccount(cfg, t, es);
    NothingMissedIff(cfg, t, es);
    AccountAfter(cfg, t, es, fs);
  }

  /** The part of the account that lasts as long as the attach. */
  lemma AccountAfter(cfg: Config, t: Session, es: seq<Event>, fs: seq<Event>)
    requires Inv(cfg, t) && t.attaching.Some? && t.replay.Some? && NoFinish(es) && !ReplayOpen(Run(cfg, t, es))
    requires IsSuffix(t.replay.value.input, History(t.disk))
    ensures var c, m := t.attaching.value, Run(cfg, t, es);
            var u := Run(cfg, FinishAttach(m), fs);
            m.replay.Some? &&
            (Attached(u.clients, c, m.nextToken) ==>
               && |BatchesOf(m)| <= |BatchesOf(u)|
               && Datas(u.clients[c].frames) == EncodeEach(BatchesOf(u)[|BatchesOf(m)|..])
               && IsSuffix(m.replay.value.input + Flat(EncodeEach(Missed(cfg, t, es))) + Flat(Datas(u.clients[c].frames)),
                           History(u.disk)))
  {
    hide Inv, Run, BatchesOf, History, IsSuffix, FinishAttach, Captures, Datas, EncodeEach, ReplayOpen, Missed, Captured, Flat;
    var c, m := t.attaching.value, Run(cfg, t, es);
    WaitAccount(cfg, t, es);
    RunKeepsInv(cfg, t, es);
    FinishedWait(cfg, m, c);
    var f := FinishAttach(m);
    LiveFramesAreTheOutput(cfg, f, fs, c, m.nextToken);
    var u := Run(cfg, f, fs);
    if Attached(u.clients, c, m.nextToken) {
      LogGrowsByBatches(cfg, t, es);
      LogGrowsByBatches(cfg, f, fs);
      NoFramesYet(f.clients[c]);
      var frames := EncodeEach(BatchesOf(u)[|BatchesOf(m)|..]);
      assert [] + frames == frames;
      AccountAdds(History(t.disk), t.replay.value.input, BatchesOf(t), Captured(cfg, t, es), Missed(cfg, t, es), Flat(frames));
    }
  }

  lemma FinishedWait(cfg: Config, m: Session, c: ClientId)
    requires Inv(cfg, m) && m.attaching == Some(c) && !ReplayOpen(m)
    ensures var f := FinishAttach(m);
            && Inv(cfg, f) && Attached(f.clients, c, m.nextToken) && m.nextToken < f.nextToken
            && f.clients[c].frames == [] && BatchesOf(f) == BatchesOf(m) && History(f.disk) == History(m.disk)
            && f.generation == m.generation
  {
    FinishAttachKeeps(cfg, m);
    hide Inv, ShouldPause;
  }

  lemma NoFramesYet(client: Client)
    requires client.ChunkClient? && client.frames == []
    ensures Datas(client.frames) == []
  {
  }

  lemma AccountAdds(h: Bytes, input: Bytes, before: seq<string>, captured: seq<string>, missed: seq<string>, frames: Bytes)
    requires IsSuffix(input, h)
    ensures var batches := before + captured + missed;
            IsSuffix(input + Flat(EncodeEach(captured)) + Flat(EncodeEach(missed)) + frames,
                     h + Flat(EncodeEach(batches[|before|..])) + frames)
  {
    hide EncodeEach;
    var batches := before + captured + missed;
    assert batches[|before|..] == captured + missed;
    EncodeEachJoins(captured, missed);
    var c, m := Flat(EncodeEach(captured)), Flat(EncodeEach(missed));
    ConcatAssociates(input, c, m);
    SuffixExtends(input, h, c + m);
    SuffixExtends(input + (c + m), h + (c + m), frames);
  }

  // ---------------------------------------------------------------- the loss is real

  /** Whenever a rebuild's first write is in flight, output that is flushed before it is done, and
      more output flushed while the snapshot waits for that, loses the latter. */
  lemma RebuildCanLose(cfg: Config, s: Session, a: string, b: string)
    requires Inv(cfg, s) && s.attaching.Some? && Captures(s)
    requires s.generation in s.spawns && s.spawns[s.generation].pendingData == ""
    ensures var g := s.generation;
            var es := [EvData(g, a), EvFlush(g), EvFirstWriteDone, EvData(g, b), EvFlush(g)];
            && NoFinish(es) && !ReplayOpen(Run(cfg, s, es))
            && Captured(cfg, s, es) == [a] && Missed(cfg, s, es) == [b]
  {
    var g := s.generation;
    var es := [EvData(g, a), EvFlush(g), EvFirstWriteDone, EvData(g, b), EvFlush(g)];
    var s1 := Step(cfg, s, es[0]);
    var s2 := Step(cfg, s1, es[1]);
    var s3 := Step(cfg, s2, es[2]);
    var s4 := Step(cfg, s3, es[3]);
    DataThenFlush(cfg, s, a);
    assert Captures(s1);
    WriteDone(cfg, s2);
    DataThenFlush(cfg, s3, b);
    assert !Captures(s4) && !ReplayOpen(s4);
    assert CapturedBy(s, es[0]) == [] && MissedBy(s, es[0]) == [];
    assert CapturedBy(s1, es[1]) == [a] && MissedBy(s1, es[1]) == [];
    assert CapturedBy(s2, es[2]) == [] && MissedBy(s2, es[2]) == [];
    assert CapturedBy(s3, es[3]) == [] && MissedBy(s3, es[3]) == [];
    assert CapturedBy(s4, es[4]) == [] && MissedBy(s4, es[4]) == [b];
    hide Step, Captures, FlushedBy, CapturedBy, MissedBy;
    FiveSteps(cfg, s, es);
  }

  lemma FiveSteps(cfg: Config, s: Session, es: seq<Event>)
    requires |es| == 5
    ensures var s1 := Step(cfg, s, es[0]);
            var s2 := Step(cfg, s1, es[1]);
            var s3 := Step(cfg, s2, es[2]);
            var s4 := Step(cfg, s3, es[3]);
            && Run(cfg, s, es) == Step(cfg, s4, es[4])
            && Captured(cfg, s, es) == CapturedBy(s, es[0]) + (CapturedBy(s1, es[1]) + (CapturedBy(s2, es[2]) +
                                       (CapturedBy(s3, es[3]) + (CapturedBy(s4, es[4]) + []))))
            && Missed(cfg, s, es) == MissedBy(s, es[0]) + (MissedBy(s1, es[1]) + (MissedBy(s2, es[2]) +
                                     (MissedBy(s3, es[3]) + (MissedBy(s4, es[4]) + []))))
  {
    hide Step, CapturedBy, MissedBy;
    var s1 := Step(cfg, s, es[0]);
    var s2 := Step(cfg, s1, es[1]);
    var s3 := Step(cfg, s2, es[2]);
    var s4 := Step(cfg, s3, es[3]);
    OneStep(cfg, s, es);
    OneStep(cfg, s1, es[1..]);
    assert es[1..][1..] == es[2..] && es[2..][1..] == es[3..] && es[3..][1..] == es[4..] && es[4..][1..] == [];
    OneStep(cfg, s2, es[2..]);
    OneStep(cfg, s3, es[3..]);
    OneStep(cfg, s4, es[4..]);
    NoSteps(cfg, Step(cfg, s4, es[4]));
    hide *;
  }

  lemma OneStep(cfg: Config, s: Session, es: seq<Event>)
    requires es != []
    ensures var t := Step(cfg, s, es[0]);
            && Run(cfg, s, es) == Run(cfg, t, es[1..])
            && Captured(cfg, s, es) == CapturedBy(s, es[0]) + Captured(cfg, t, es[1..])
            && Missed(cfg, s, es) == MissedBy(s, es[0]) + Missed(cfg, t, es[1..])
  {
    hide Step, CapturedBy, MissedBy;
  }

  lemma NoSteps(cfg: Config, s: Session)
    ensures Run(cfg, s, []) == s && Captured(cfg, s, []) == [] && Missed(cfg, s, []) == []
  {
  }

  /** Output arrives and is flushed; a replay under way stays as open as it was. */
  lemma DataThenFlush(cfg: Config, s: Session, text: string)
    requires s.generation in s.spawns && s.spawns[s.generation].pendingData == "" && s.replay.Some?
    ensures var g := s.generation;
            var t := Step(cfg, s, EvData(g, text));
            var u := Step(cfg, t, EvFlush(g));
            && FlushedBy(s, EvData(g, text)).None? && FlushedBy(t, EvFlush(g)) == Some(text)
            && t.replay == s.replay && t.warm == s.warm
            && u.generation == g && g in u.spawns && u.spawns[g].pendingData == ""
            && u.replay.Some? && u.replay.value.open == s.replay.value.open && (u.warm.Some? <==> s.warm.Some?)
  {
    hide DiskAppend, Encode, RingAppend, Deliver;
    assert "" + text == text;
  }

  lemma WriteDone(cfg: Config, s: Session)
    requires ReplayOpen(s)
    ensures var t := Step(cfg, s, EvFirstWriteDone);
            && FlushedBy(s, EvFirstWriteDone).None? && t.replay.Some? && !ReplayOpen(t)
            && t.generation == s.generation && t.spawns == s.spawns
  {
  }

  const ROOMY := Config(Limits(1000, 1000), 1000)
  const NO_DISK := Disk([], None, NO_PENDING)

  function Watching(): Event {
    EvAttachChunk(0, Dims(80, 24), 7, "", Capabilities(true, true, None))
  }

  /** A client attaches, leaves, the shell writes, and the client comes back without a cursor. */
  function ComingBack(): seq<Event> {
    [Watching(), EvDetach(0, None), EvData(1, "a"), EvFlush(1), Watching()]
  }

  lemma AttachBeforeOutput(s: Session)
    requires s == Created(Shell, NO_DISK)
    ensures var t := Step(ROOMY, Step(ROOMY, s, Watching()), EvDetach(0, None));
            && t.state == Running && t.generation == 1 && t.attaching.None? && t.clients == map[] && t.ring.None?
            && t.warm.None? && t.disk == NO_DISK && t.replay.None? && t.spawns == map[1 := Spawn("", false, "", [])]
  {
    var p := SpawnProcess(s, 7);
    assert Flat([]) == [];
    assert ReadTail(NO_DISK, ROOMY.limits) == [];
    hide ReadTail;
    assert Step(ROOMY, s, Watching()) == RegisterChunk(p, 0, []);
  }

  lemma OutputUnwatched(t: Session)
    requires t.state == Running && t.generation == 1 && t.attaching.None? && t.clients == map[] && t.ring.None?
    requires t.warm.None? && t.disk == NO_DISK && t.replay.None? && t.spawns == map[1 := Spawn("", false, "", [])]
    ensures var v := Step(ROOMY, Step(ROOMY, t, EvData(1, "a")), EvFlush(1));
            && v.state == Running && v.generation == 1 && v.attaching.None? && v.ring.None? && v.warm.None?
            && 1 in v.spawns && v.spawns[1].pendingData == ""
            && v.disk == DiskAppend(NO_DISK, Encode("a"), ROOMY.limits)
  {
    hide DiskAppend, Encode;
    assert "" + "a" == "a";
  }

  lemma TailOfOneByte()
    ensures var d := DiskAppend(NO_DISK, Encode("a"), ROOMY.limits);
            ReadTail(d, ROOMY.limits) == Encode("a") && Encode("a") != []
  {
    AppendExtendsHistory(NO_DISK, Encode("a"), ROOMY.limits);
    assert Encode("a") == EncodeChar('a') + Encode("");
    assert |Encode("a")| == 1;
    assert Flat([]) == [];
    assert History(NO_DISK) + Encode("a") == Encode("a");
    ReadTailIsTailOfHistory(DiskAppend(NO_DISK, Encode("a"), ROOMY.limits), ROOMY.limits);
  }

  lemma ComesBackToARebuild(v: Session)
    requires v.state == Running && v.generation == 1 && v.attaching.None? && v.ring.None? && v.warm.None?
    requires v.disk == DiskAppend(NO_DISK, Encode("a"), ROOMY.limits)
    ensures var w := Step(ROOMY, v, Watching());
            w.attaching == Some(0) && Captures(w) && w.generation == 1 && w.spawns == v.spawns
  {
    TailOfOneByte();
    hide ReadTail, DiskAppend, Encode, DiskFlush;
  }

  /** Main result: the loss is reachable. A shell's only client comes back; what the shell prints
      while the snapshot waits for output printed just before is neither in the replay nor sent. */
  lemma ReplayCanLoseOutput()
    ensures var w := Run(ROOMY, Created(Shell, NO_DISK), ComingBack());
            var es := [EvData(1, "b"), EvFlush(1), EvFirstWriteDone, EvData(1, "c"), EvFlush(1)];
            var m := Run(ROOMY, w, es);
            && w.attaching == Some(0) && NoFinish(es) && !ReplayOpen(m) && m.attaching == Some(0)
            && Missed(ROOMY, w, es) == ["c"]
            && Attached(FinishAttach(m).clients, 0, m.nextToken) && FinishAttach(m).clients[0].frames == []
  {
    var s, es := Created(Shell, NO_DISK), ComingBack();
    var w := ComingBackRuns();
    assert w == Run(ROOMY, s, es);
    assert Inv(ROOMY, s) by {
      assert Flat([]) == [];
      InitialInv(ROOMY, Shell, NO_DISK, 1, None, false, false);
    }
    RunKeepsInv(ROOMY, s, es);
    hide Inv, Run, Captures, FinishAttach;
    RebuildCanLose(ROOMY, w, "b", "c");
    var fs := [EvData(1, "b"), EvFlush(1), EvFirstWriteDone, EvData(1, "c"), EvFlush(1)];
    var m := Run(ROOMY, w, fs);
    assert w.replay.Some? by { CapturesSomething(w); }
    WaitAccount(ROOMY, w, fs);
    RunKeepsInv(ROOMY, w, fs);
    FinishedWait(ROOMY, m, 0);
  }

  lemma CapturesSomething(s: Session)
    requires Captures(s)
    ensures s.replay.Some?
  {
  }

  lemma ComingBackRuns() returns (w: Session)
    ensures w == Run(ROOMY, Created(Shell, NO_DISK), ComingBack())
    ensures w.attaching == Some(0) && Captures(w) && w.generation == 1 && 1 in w.spawns && w.spawns[1].pendingData == ""
  {
    var s, es := Created(Shell, NO_DISK), ComingBack();
    var s1 := Step(ROOMY, s, es[0]);
    var s2 := Step(ROOMY, s1, es[1]);
    var s3 := Step(ROOMY, s2, es[2]);
    var s4 := Step(ROOMY, s3, es[3]);
    w := Step(ROOMY, s4, es[4]);
    AttachBeforeOutput(s);
    OutputUnwatched(s2);
    ComesBackToARebuild(s4);
    hide Step, Captures;
    FiveSteps(ROOMY, s, es);
  }
}
