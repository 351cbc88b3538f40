/** What a reconnecting client misses. The cursor counts numbered chunks, but a batch is numbered only
    while some chunk client is attached; a batch flushed while there is none is in the log, and no
    later cursor asks for it. */
module PtySessionReconnect {
  import opened Wrappers
  import opened Utf8
  import opened Decimal
  import opened ScrollbackSpec
  import opened SessionPolicy
  import opened PtySession
  import opened PtySessionInvariant
  import opened PtySessionEffect
  import opened PtySessionTheorems
  import opened PtySessionOutput
  import opened PtySessionReplay

  function FlushedNow(s: Session, e: Event): seq<string> {
    if FlushedBy(s, e).Some? then [FlushedBy(s, e).value] else []
  }

  function NumberedNow(s: Session, e: Event): seq<string> {
    if HasChunkClient(s.clients) then FlushedNow(s, e) else []
  }

  /** The batches that a run flushes for the current generation while a chunk client is attached. */
  function Numbered(cfg: Config, s: Session, es: seq<Event>): seq<string>
    decreases |es|
  {
    if es == [] then [] else NumberedNow(s, es[0]) + Numbered(cfg, Step(cfg, s, es[0]), es[1..])
  }

  /** Step `i` flushes a batch of the current process while no chunk client is attached. */
  predicate UnheardAt(cfg: Config, s: Session, es: seq<Event>, i: nat)
    requires i < |es|
  {
    var p := Run(cfg, s, es[..i]);
    FlushedBy(p, es[i]).Some? && !HasChunkClient(p.clients)
  }

  // ---------------------------------------------------------------- one step

  lemma AttachKeepsChunkLog(cfg: Config, s: Session, e: Event)
    requires e.EvAttachString? || e.EvAttachChunk?
    ensures Step(cfg, s, e).chunkLog == s.chunkLog
  {
    hide EnsureRunning, Step;
    if s.attaching.Some? || EnsureRunning(cfg, s, e.pid, e.separator).None? {
      AttachRefused(cfg, s, e);
    } else {
      EnsureRunningMakesRunning(cfg, s, e.pid, e.separator);
      AttachFields(cfg, s, e);
    }
  }

  lemma StaleFlushKeepsChunkLog(cfg: Config, s: Session, g: nat)
    requires FlushedBy(s, EvFlush(g)).None?
    ensures Flush(cfg, s, g).chunkLog == s.chunkLog
  {
    hide Broadcast;
  }

  lemma PauseKeepsChunkLog(cfg: Config, s: Session, e: Event)
    requires e.EvDetach? || e.EvSetFlow? || e.EvFinishAttach?
    ensures Step(cfg, s, e).chunkLog == s.chunkLog
  {
    hide ShouldPause;
  }

  /** Only a flush of the current generation numbers anything. */
  lemma OnlyFlushesNumber(cfg: Config, s: Session, e: Event)
    requires FlushedBy(s, e).None?
    ensures Step(cfg, s, e).chunkLog == s.chunkLog
  {
    if e.EvAttachString? || e.EvAttachChunk? {
      AttachKeepsChunkLog(cfg, s, e);
      hide Step;
    } else if e.EvFlush? {
      StaleFlushKeepsChunkLog(cfg, s, e.g);
      hide Flush, FlushedBy;
    } else if e.EvDetach? || e.EvSetFlow? || e.EvFinishAttach? {
      PauseKeepsChunkLog(cfg, s, e);
      hide Step;
    } else {
      hide FlushedBy;
      OtherKeepsChunkLog(cfg, s, e);
      hide Step;
    }
  }

  lemma OtherKeepsChunkLog(cfg: Config, s: Session, e: Event)
    requires !e.EvAttachString? && !e.EvAttachChunk? && !e.EvFlush? && !e.EvDetach? && !e.EvSetFlow? && !e.EvFinishAttach?
    ensures Step(cfg, s, e).chunkLog == s.chunkLog
  {
    hide DiskFlush, DiskStep, Flush, AttachString, AttachChunk, Detach, SetFlow, FinishAttach, DeriveEndReason;
  }

  lemma FlushNumbers(cfg: Config, s: Session, e: Event)
    requires FlushedBy(s, e).Some?
    ensures Step(cfg, s, e).generation == s.generation
    ensures CurrentHistory(Step(cfg, s, e)) == CurrentHistory(s) + EncodeEach(NumberedNow(s, e))
  {
    FlatEncodeOne(FlushedBy(s, e).value);
    hide DiskAppend, Encode, RingAppend, Deliver, EncodeEach;
    assert CurrentHistory(s) + [] == CurrentHistory(s);
  }

  lemma StepNumbers(cfg: Config, s: Session, e: Event)
    requires Inv(cfg, s) && Step(cfg, s, e).generation == s.generation
    ensures var t := Step(cfg, s, e);
            && BatchesOf(t) == BatchesOf(s) + FlushedNow(s, e)
            && CurrentHistory(t) == CurrentHistory(s) + EncodeEach(NumberedNow(s, e))
  {
    hide Inv, Step, BatchesOf, FlushedBy, Encode, EncodeEach, HasChunkClient;
    if FlushedBy(s, e).Some? {
      FlushAddsBatch(cfg, s, e);
      FlushNumbers(cfg, s, e);
    } else {
      StepIsQuiet(cfg, s, e);
      OnlyFlushesNumber(cfg, s, e);
      FlatEncodeOne("");
      assert BatchesOf(s) + [] == BatchesOf(s) && CurrentHistory(s) + [] == CurrentHistory(s);
    }
  }

  // ---------------------------------------------------------------- a run

  lemma UnheardLater(cfg: Config, s: Session, es: seq<Event>, i: nat)
    requires i + 1 < |es|
    ensures UnheardAt(cfg, s, es, i + 1) <==> UnheardAt(cfg, Step(cfg, s, es[0]), es[1..], i)
  {
    assert es[..i + 1][1..] == es[1..][..i];
  }

  lemma UnheardFirst(cfg: Config, s: Session, es: seq<Event>)
    requires es != []
    ensures UnheardAt(cfg, s, es, 0) <==> |NumberedNow(s, es[0])| != |FlushedNow(s, es[0])|
    ensures !UnheardAt(cfg, s, es, 0) ==> NumberedNow(s, es[0]) == FlushedNow(s, es[0])
    ensures |NumberedNow(s, es[0])| <= |FlushedNow(s, es[0])|
  {
    hide FlushedBy, HasChunkClient;
  }

  predicate NeverUnheard(cfg: Config, s: Session, es: seq<Event>) {
    forall i: nat :: i < |es| ==> !UnheardAt(cfg, s, es, i)
  }

  lemma NeverUnheardSplits(cfg: Config, s: Session, es: seq<Event>)
    requires es != []
    ensures NeverUnheard(cfg, s, es) <==>
              !UnheardAt(cfg, s, es, 0) && NeverUnheard(cfg, Step(cfg, s, es[0]), es[1..])
  {
    hide UnheardAt, Step;
    var t := Step(cfg, s, es[0]);
    forall i: nat | i < |es[1..]| ensures UnheardAt(cfg, s, es, i + 1) <==> UnheardAt(cfg, t, es[1..], i) {
      UnheardLater(cfg, s, es, i);
    }
    if !UnheardAt(cfg, s, es, 0) && NeverUnheard(cfg, t, es[1..]) {
      forall i: nat | i < |es| ensures !UnheardAt(cfg, s, es, i) {
        if i > 0 {
          assert UnheardAt(cfg, s, es, i) <==> UnheardAt(cfg, t, es[1..], i - 1) by { UnheardLater(cfg, s, es, i - 1); }
        }
      }
    }
  }

  /** Main result: what is numbered and what is flushed. Within a generation the numbered history
      grows by exactly the batches flushed while a chunk client is attached. These are all that the
      process had flushed exactly if no scheduled flush of it ran while none was. */
  lemma {:induction false} HistoryFollowsBatches(cfg: Config, s: Session, es: seq<Event>)
    requires Inv(cfg, s) && Run(cfg, s, es).generation == s.generation
    ensures var t := Run(cfg, s, es);
            var n := |BatchesOf(s)|;
            && CurrentHistory(t) == CurrentHistory(s) + EncodeEach(Numbered(cfg, s, es))
            && BatchesOf(s) <= BatchesOf(t)
            && |Numbered(cfg, s, es)| <= |BatchesOf(t)| - n
            && (NeverUnheard(cfg, s, es) <==> Numbered(cfg, s, es) == BatchesOf(t)[n..])
            && (NeverUnheard(cfg, s, es) <==> |Numbered(cfg, s, es)| == |BatchesOf(t)| - n)
    decreases |es|
  {
    hide Inv, Step, BatchesOf, FlushedNow, NumberedNow, EncodeEach, UnheardAt, CurrentHistory;
    if es == [] {
      FlatEncodeOne("");
      assert BatchesOf(s)[|BatchesOf(s)|..] == [] && CurrentHistory(s) + [] == CurrentHistory(s);
    } else {
      var t, u := Step(cfg, s, es[0]), Run(cfg, s, es);
      GenerationBetween(cfg, s, es);
      StepNumbers(cfg, s, es[0]);
      StepKeepsInv(cfg, s, es[0]);
      HistoryFollowsBatches(cfg, t, es[1..]);
      NeverUnheardSplits(cfg, s, es);
      UnheardFirst(cfg, s, es);
      EncodeEachJoins(NumberedNow(s, es[0]), Numbered(cfg, t, es[1..]));
      NumberedJoins(BatchesOf(s), FlushedNow(s, es[0]), NumberedNow(s, es[0]), BatchesOf(u), Numbered(cfg, t, es[1..]));
      HistoryJoins(CurrentHistory(s), EncodeEach(NumberedNow(s, es[0])), EncodeEach(Numbered(cfg, t, es[1..])));
    }
  }

  lemma HistoryJoins(h: seq<Bytes>, a: seq<Bytes>, b: seq<Bytes>)
    ensures h + a + b == h + (a + b)
  {
  }

  lemma NumberedJoins(before: seq<string>, flushed: seq<string>, numbered: seq<string>, after: seq<string>,
                      later: seq<string>)
    requires before + flushed <= after
    requires numbered == flushed || |numbered| < |flushed|
    requires |later| <= |after| - |before + flushed|
    requires |later| == |after| - |before + flushed| <==> later == after[|before + flushed|..]
    ensures numbered == flushed && later == after[|before + flushed|..] <==> numbered + later == after[|before|..]
    ensures numbered == flushed && later == after[|before + flushed|..] <==> |numbered + later| == |after| - |before|
    ensures |numbered + later| <= |after| - |before| && before <= after
  {
    assert after == before + flushed + after[|before + flushed|..];
    assert after[|before|..] == flushed + after[|before + flushed|..];
  }

  // ---------------------------------------------------------------- the reconnect

  lemma DatasOfFrames(generation: nat, h: seq<Bytes>, from: nat)
    requires from <= |h|
    ensures Datas(Frames(generation, h, from)) == h[from..]
  {
  }

  /** The reattach itself logs and flushes nothing; its frames are what was numbered since. */
  lemma ReattachServes(cfg: Config, r: Session, c: ClientId, dims: Dims, pid: nat, separator: string,
                       caps: Capabilities, cursor: LastSeen)
    requires Inv(cfg, r) && r.attaching.None? && r.state == Running
    requires caps.binary && caps.chunkedReplay && ParseLastSeen(caps.lastSeen) == Some(cursor)
    requires Serviceable(r, cursor)
    ensures var t := AttachChunk(cfg, r, c, dims, pid, separator, caps);
            && Inv(cfg, t) && t.attaching.None? && r.nextToken < t.nextToken && t.generation == r.generation
            && Attached(t.clients, c, r.nextToken)
            && cursor.seqNo < |CurrentHistory(r)|
            && Datas(t.clients[c].frames) == CurrentHistory(r)[cursor.seqNo + 1..]
            && BatchesOf(t) == BatchesOf(r) && History(t.disk) == History(r.disk)
  {
    hide Inv, AttachChunk, Serviceable, Frames, ParseLastSeen, CurrentHistory, Datas, BatchesOf, History, EncodeEach,
         FlushedBy, StreamFrom;
    var e := EvAttachChunk(c, dims, pid, separator, caps);
    var t := AttachChunk(cfg, r, c, dims, pid, separator, caps);
    AttachServesDelta(cfg, r, c, dims, pid, separator, caps, cursor);
    AttachChunkKeeps(cfg, r, c, dims, pid, separator, caps);
    OpensWith(cfg, r, t, c, r.nextToken, r.generation, cursor.seqNo + 1);
    assert Step(cfg, r, e) == t;
    assert FlushedBy(r, e).None? by { AttachFlushesNothing(r, e); }
    AttachKeepsHistory(cfg, r, e);
    StepLogsBatches(cfg, r, e);
    FlatEncodeOne("");
    assert BatchesOf(r) + [] == BatchesOf(r) && History(r.disk) + [] == History(r.disk);
  }

  lemma AttachKeepsHistory(cfg: Config, s: Session, e: Event)
    requires e.EvAttachChunk? && Step(cfg, s, e).generation == s.generation
    ensures CurrentHistory(Step(cfg, s, e)) == CurrentHistory(s)
  {
    hide Step;
    AttachKeepsChunkLog(cfg, s, e);
  }

  lemma AttachFlushesNothing(s: Session, e: Event)
    requires e.EvAttachChunk?
    ensures FlushedBy(s, e).None?
  {
  }

  lemma OpensWith(cfg: Config, r: Session, t: Session, c: ClientId, token: nat, g: nat, from: nat)
    requires Attached(t.clients, c, token) && StreamFrom(t, c, token, g, from)
    ensures t.generation == g && from <= |CurrentHistory(t)|
    ensures Datas(t.clients[c].frames) == CurrentHistory(t)[from..]
  {
    DatasOfFrames(g, CurrentHistory(t), from);
  }

  /** Main result: what a reconnect owes and what it pays. Let `cursor` name the newest chunk of a
      state `s`, let any run lead from there to a state in which a client comes back with that cursor
      while all that came after it is retained, and let any run follow. As long as the attach lasts,
      the client's frames are the batches that were flushed in between under the eyes of some chunk
      client, and then all those flushed since it came back. That is everything flushed since the
      cursor exactly if no scheduled flush of the process ran while no chunk client was attached; and
      then the log is what it was at the cursor, followed by what the frames hold. */
  lemma ReconnectAccount(cfg: Config, s: Session, es: seq<Event>, c: ClientId, dims: Dims, pid: nat, separator: string,
                         caps: Capabilities, cursor: LastSeen, fs: seq<Event>)
    requires Inv(cfg, s) && cursor.generation == s.generation && cursor.seqNo + 1 == |CurrentHistory(s)|
    requires var r := Run(cfg, s, es); r.attaching.None? && r.state == Running && Serviceable(r, cursor)
    requires caps.binary && caps.chunkedReplay && ParseLastSeen(caps.lastSeen) == Some(cursor)
    ensures var r := Run(cfg, s, es);
            var t := AttachChunk(cfg, r, c, dims, pid, separator, caps);
            var u := Run(cfg, t, fs);
            && t.attaching.None? && Attached(t.clients, c, r.nextToken)
            && BatchesOf(s) <= BatchesOf(r)
            && (Attached(u.clients, c, r.nextToken) ==>
                  var received := Datas(u.clients[c].frames);
                  && BatchesOf(r) <= BatchesOf(u)
                  && received == EncodeEach(Numbered(cfg, s, es)) + EncodeEach(BatchesOf(u)[|BatchesOf(r)|..])
                  && (received == EncodeEach(BatchesOf(u)[|BatchesOf(s)|..]) <==> NeverUnheard(cfg, s, es))
                  && (NeverUnheard(cfg, s, es) ==> History(u.disk) == History(s.disk) + Flat(received)))
  {
    hide Inv, AttachChunk, Run, BatchesOf, History, Datas, EncodeEach, NeverUnheard, ParseLastSeen, Serviceable,
         CurrentHistory, Flat;
    var r := Run(cfg, s, es);
    var t := AttachChunk(cfg, r, c, dims, pid, separator, caps);
    var u := Run(cfg, t, fs);
    assert r.generation == s.generation by { ServedInGeneration(r, cursor); }
    RunKeepsInv(cfg, s, es);
    HistoryFollowsBatches(cfg, s, es);
    LogGrowsByBatches(cfg, s, es);
    ReattachServes(cfg, r, c, dims, pid, separator, caps, cursor);
    assert CurrentHistory(r)[cursor.seqNo + 1..] == EncodeEach(Numbered(cfg, s, es));
    LiveFramesAreTheOutput(cfg, t, fs, c, r.nextToken);
    if Attached(u.clients, c, r.nextToken) {
      LogGrowsByBatches(cfg, t, fs);
      ReconnectJoins(BatchesOf(s), BatchesOf(r), BatchesOf(u), Numbered(cfg, s, es));
      BatchesJoin(History(s.disk), BatchesOf(s), BatchesOf(r), BatchesOf(u));
    }
  }

  lemma ServedInGeneration(r: Session, cursor: LastSeen)
    requires Serviceable(r, cursor)
    ensures r.generation == cursor.generation
  {
  }

  lemma ReconnectJoins(a: seq<string>, b: seq<string>, c: seq<string>, numbered: seq<string>)
    requires a <= b <= c
    ensures EncodeEach(numbered) + EncodeEach(c[|b|..]) == EncodeEach(c[|a|..]) <==> numbered == b[|a|..]
  {
    hide EncodeEach;
    assert c[|a|..] == b[|a|..] + c[|b|..];
    EncodeEachJoins(b[|a|..], c[|b|..]);
    var x, y, z := EncodeEach(numbered), EncodeEach(b[|a|..]), EncodeEach(c[|b|..]);
    if x + z == y + z {
      assert |x| == |y|;
      assert x == (x + z)[..|x|] == (y + z)[..|y|] == y;
      FramesTellBatches(numbered, b[|a|..]);
    }
  }

  // ---------------------------------------------------------------- a companion

  /** While any chunk client stays attached, no output goes unheard, so every other one may come and
      go without a loss. */
  lemma CompanionHearsAll(cfg: Config, s: Session, es: seq<Event>, d: ClientId, token: nat)
    requires Attached(s.clients, d, token) && s.attaching != Some(d)
    requires forall i :: 0 <= i < |es| ==> !Displaces(es[i], d, token)
    requires Run(cfg, s, es).generation == s.generation
    ensures NeverUnheard(cfg, s, es)
  {
    hide Run, FlushedBy;
    forall i: nat | i < |es| ensures !UnheardAt(cfg, s, es, i) {
      RunPrefix(cfg, s, es, i);
      GenerationBetween(cfg, s, es[..i]);
      GenerationBetween(cfg, Run(cfg, s, es[..i]), es[i..]);
      AttachmentSurvives(cfg, s, es[..i], d, token);
      assert HasChunkClient(Run(cfg, s, es[..i]).clients);
    }
  }

  // ---------------------------------------------------------------- the loss is real

  lemma WriteUnheard(cfg: Config, s: Session, text: string)
    requires s.generation in s.spawns && !HasChunkClient(s.clients)
    ensures var g := s.generation;
            var r := Step(cfg, Step(cfg, s, EvData(g, text)), EvFlush(g));
            && BatchesOf(r) == BatchesOf(s) + [s.spawns[g].pendingData + text]
            && CurrentHistory(r) == CurrentHistory(s)
            && r.generation == s.generation && r.state == s.state && r.attaching == s.attaching
  {
    hide DiskAppend, Encode, RingAppend, Deliver;
  }

  lemma NewestIsServiceable(cfg: Config, s: Session, cursor: LastSeen)
    requires Inv(cfg, s) && cursor.generation == s.generation && cursor.seqNo + 1 == |CurrentHistory(s)|
    ensures Serviceable(s, cursor)
  {
    hide DiskInv, WarmInv, SpawnInv, OriginInv, IssuedInv, TagsInv, StdinInv, ClientsInv, LifeInv, FlowInv, Retains,
         Numbered;
  }

  lemma RunningHasASpawn(cfg: Config, s: Session)
    requires Inv(cfg, s) && s.state == Running
    ensures s.generation in s.spawns
  {
  }

  /** Whenever a running session is left without a chunk client, what its process writes next is lost to
      whoever comes back with the newest cursor: no frame answers it. */
  lemma SoleClientLoses(cfg: Config, s: Session, text: string, c: ClientId, dims: Dims, pid: nat, separator: string,
                        caps: Capabilities, cursor: LastSeen)
    requires Inv(cfg, s) && s.state == Running && s.attaching.None? && !HasChunkClient(s.clients)
    requires cursor.generation == s.generation && cursor.seqNo + 1 == |CurrentHistory(s)|
    requires caps.binary && caps.chunkedReplay && ParseLastSeen(caps.lastSeen) == Some(cursor)
    ensures s.generation in s.spawns
    ensures var g := s.generation;
            var r := Run(cfg, s, [EvData(g, text), EvFlush(g)]);
            var t := AttachChunk(cfg, r, c, dims, pid, separator, caps);
            && BatchesOf(t) == BatchesOf(s) + [s.spawns[g].pendingData + text]
            && t.attaching.None? && Attached(t.clients, c, r.nextToken) && t.clients[c].frames == []
  {
    hide Inv, Step, Serviceable, BatchesOf, AttachChunk, ParseLastSeen, Datas, CurrentHistory, HasChunkClient;
    var g := s.generation;
    var es := [EvData(g, text), EvFlush(g)];
    RunningHasASpawn(cfg, s);
    WriteUnheard(cfg, s, text);
    RunOfTwo(cfg, s, es);
    RunKeepsInv(cfg, s, es);
    var r := Run(cfg, s, es);
    NewestIsServiceable(cfg, r, cursor);
    ReattachServes(cfg, r, c, dims, pid, separator, caps, cursor);
    NoDatas(AttachChunk(cfg, r, c, dims, pid, separator, caps).clients[c]);
  }

  lemma NoDatas(client: Client)
    requires client.ChunkClient? && Datas(client.frames) == []
    ensures client.frames == []
  {
    assert |Datas(client.frames)| == 0;
  }

  /** A client watches a shell print and goes away. */
  function Watched(): seq<Event> {
    [Watching(), EvData(1, "a"), EvFlush(1), EvDetach(0, None)]
  }

  lemma FirstAttach(s: Session)
    requires s == Created(Shell, NO_DISK)
    ensures var t := Step(ROOMY, s, Watching());
            && t.state == Running && t.generation == 1 && t.attaching.None? && t.ring.None? && t.chunkLog == map[]
            && t.clients == map[0 := ChunkClient(1, false, [])] && t.spawns == map[1 := Spawn("", false, "", [])]
  {
    var p := SpawnProcess(s, 7);
    assert Flat([]) == [];
    assert ReadTail(NO_DISK, ROOMY.limits) == [];
    hide ReadTail;
    assert Step(ROOMY, s, Watching()) == RegisterChunk(p, 0, []);
  }

  lemma OutputArrives(t: Session)
    requires t.generation == 1 && t.spawns == map[1 := Spawn("", false, "", [])]
    ensures Step(ROOMY, t, EvData(1, "a")) == t.(spawns := map[1 := Spawn("a", true, "a", [])])
  {
    assert "" + "a" == "a";
  }

  lemma OutputWatched(p: Session)
    requires p.state == Running && p.generation == 1 && p.attaching.None? && p.ring.None? && p.chunkLog == map[]
    requires p.clients == map[0 := ChunkClient(1, false, [])] && p.spawns == map[1 := Spawn("a", true, "a", [])]
    ensures var v := Step(ROOMY, p, EvFlush(1));
            && v.state == Running && v.generation == 1 && v.attaching.None? && v.chunkLog == map[1 := [Encode("a")]]
            && v.clients == map[0 := ChunkClient(1, false, [Frame(1, 0, Encode("a"))])]
            && v.spawns == map[1 := Spawn("", false, "a", ["a"])]
  {
    hide Broadcast;
    assert [] + ["a"] == ["a"];
    assert p.spawns[1 := Spawn("", false, "a", ["a"])] == map[1 := Spawn("", false, "a", ["a"])];
    FirstChunk(TakeBatch(p, 1));
    assert Step(ROOMY, p, EvFlush(1)) == Broadcast(ROOMY, TakeBatch(p, 1), 1, "a");
  }

  lemma FirstChunk(p: Session)
    requires p.ring.None? && p.chunkLog == map[] && p.clients == map[0 := ChunkClient(1, false, [])]
    ensures var v := Broadcast(ROOMY, p, 1, "a");
            && v.state == p.state && v.generation == p.generation && v.attaching == p.attaching && v.spawns == p.spawns
            && v.chunkLog == map[1 := [Encode("a")]]
            && v.clients == map[0 := ChunkClient(1, false, [Frame(1, 0, Encode("a"))])]
  {
    hide DiskAppend, Encode, RingAppend;
    assert p.clients[0].ChunkClient?;
    var frame := Some(Frame(1, 0, Encode("a")));
    assert [] + [frame.value] == [frame.value] && [] + [Encode("a")] == [Encode("a")];
    assert Broadcast(ROOMY, p, 1, "a").clients == map c | c in p.clients :: Deliver(p.clients[c], frame, "a");
    var none: map<nat, seq<Bytes>> := map[];
    assert none[1 := [Encode("a")]] == map[1 := [Encode("a")]];
  }

  lemma Leaves(v: Session)
    requires v.state == Running && v.generation == 1 && v.attaching.None? && 0 in v.clients && v.clients.Keys == {0}
    ensures var w := Step(ROOMY, v, EvDetach(0, None));
            && w.state == Running && w.generation == 1 && w.attaching.None? && w.clients == map[]
            && w.spawns == v.spawns && w.chunkLog == v.chunkLog
  {
    hide ShouldPause;
    assert v.clients - {0} == map[];
  }

  lemma WatchedRun() returns (v: Session, w: Session)
    ensures v == Run(ROOMY, Created(Shell, NO_DISK), Watched()[..3]) && w == Run(ROOMY, Created(Shell, NO_DISK), Watched())
    ensures v.clients == map[0 := ChunkClient(1, false, [Frame(1, 0, Encode("a"))])]
    ensures w.state == Running && w.generation == 1 && w.attaching.None? && w.clients == map[]
    ensures w.chunkLog == map[1 := [Encode("a")]] && w.spawns == map[1 := Spawn("", false, "a", ["a"])]
  {
    var s, es := Created(Shell, NO_DISK), Watched();
    var s1 := Step(ROOMY, s, es[0]);
    var s2 := Step(ROOMY, s1, es[1]);
    v := Step(ROOMY, s2, es[2]);
    w := Step(ROOMY, v, es[3]);
    FirstAttach(s);
    hide Step, Run, Encode;
    OutputArrives(s1);
    OutputWatched(s2);
    Leaves(v);
    RunOfThree(ROOMY, s, es[..3]);
    RunOfFour(ROOMY, s, es);
  }

  function BackAfterOne(): Capabilities {
    Capabilities(true, true, Some(WireLastSeen(1, "0")))
  }

  lemma ComesBackWithNothing(w: Session)
    requires Inv(ROOMY, w) && w.state == Running && w.generation == 1 && w.attaching.None? && w.clients == map[]
    requires w.chunkLog == map[1 := [Encode("a")]] && w.spawns == map[1 := Spawn("", false, "a", ["a"])]
    ensures var r := Run(ROOMY, w, [EvData(1, "b"), EvFlush(1)]);
            var t := AttachChunk(ROOMY, r, 0, Dims(80, 24), 7, "", BackAfterOne());
            BatchesOf(t) == ["a"] + ["b"] && Attached(t.clients, 0, r.nextToken) && t.clients[0].frames == []
  {
    assert CurrentHistory(w) == [Encode("a")] && BatchesOf(w) == ["a"] && !HasChunkClient(w.clients);
    CursorRoundTrip(LastSeen(1, 0), WireLastSeen(1, "0"));
    assert Numeral(0) == "0";
    hide Inv, Step, Run, AttachChunk, BatchesOf, CurrentHistory, HasChunkClient, ParseLastSeen, Encode;
    SoleClientLoses(ROOMY, w, "b", 0, Dims(80, 24), 7, "", BackAfterOne(), LastSeen(1, 0));
    assert "" + "b" == "b";
  }

  /** The loss is reachable: a shell's only client sees "a" printed and goes away, "b" is printed, and
      the client comes back with the cursor of what it saw. It is attached and holds nothing. */
  lemma ReconnectCanLoseOutput()
    ensures var before := Run(ROOMY, Created(Shell, NO_DISK), Watched()[..3]);
            var r := Run(ROOMY, Run(ROOMY, Created(Shell, NO_DISK), Watched()), [EvData(1, "b"), EvFlush(1)]);
            var t := AttachChunk(ROOMY, r, 0, Dims(80, 24), 7, "", BackAfterOne());
            && before.clients == map[0 := ChunkClient(1, false, [Frame(1, 0, Encode("a"))])]
            && BatchesOf(t) == ["a"] + ["b"]
            && Attached(t.clients, 0, r.nextToken) && t.clients[0].frames == []
  {
    var v, w := WatchedRun();
    NewSessionInv();
    hide *;
    RunKeepsInv(ROOMY, Created(Shell, NO_DISK), Watched());
    ComesBackWithNothing(w);
  }

  lemma NewSessionInv()
    ensures Inv(ROOMY, Created(Shell, NO_DISK))
  {
    assert Flat([]) == [];
    InitialInv(ROOMY, Shell, NO_DISK, 1, None, false, false);
    hide Inv;
  }

  // ---------------------------------------------------------------- string clients

  lemma QuietKeepsHeard(s: Session, e: Event, t: Session, c: ClientId, token: nat)
    requires Quiet(s, e, t) && Holds(s.clients, c, token) && s.clients[c].StringClient?
    requires s.attaching != Some(c) && !Displaces(e, c, token) && c in t.clients
    ensures t.clients[c].StringClient? && t.clients[c].heard == s.clients[c].heard
  {
    hide BatchesOf;
  }

  lemma StepIsHeard(cfg: Config, s: Session, e: Event, c: ClientId, token: nat)
    requires Inv(cfg, s) && Holds(s.clients, c, token) && s.clients[c].StringClient?
    requires s.attaching != Some(c) && !Displaces(e, c, token) && Step(cfg, s, e).generation == s.generation
    ensures var t := Step(cfg, s, e);
            && Holds(t.clients, c, token) && t.clients[c].StringClient? && t.attaching != Some(c)
            && t.clients[c].heard == s.clients[c].heard + FlushedNow(s, e)
  {
    hide Inv, Step, FlushedBy, BatchesOf, LifeEffect, HistoryEffect, Quiet;
    StepEffect(cfg, s, e);
    if FlushedBy(s, e).Some? {
      FlushReachesEveryone(cfg, s, e, c);
    } else {
      StepIsQuiet(cfg, s, e);
      QuietKeepsHeard(s, e, Step(cfg, s, e), c, token);
      assert s.clients[c].heard + [] == s.clients[c].heard;
    }
  }

  /** A string attach that nothing takes off hears every batch flushed since. */
  lemma {:induction false} RunIsHeard(cfg: Config, s: Session, es: seq<Event>, c: ClientId, token: nat)
    requires Inv(cfg, s) && Holds(s.clients, c, token) && s.clients[c].StringClient? && s.attaching != Some(c)
    requires forall i :: 0 <= i < |es| ==> !Displaces(es[i], c, token)
    requires Run(cfg, s, es).generation == s.generation
    ensures var u := Run(cfg, s, es);
            && Holds(u.clients, c, token) && u.clients[c].StringClient?
            && BatchesOf(s) <= BatchesOf(u)
            && u.clients[c].heard == s.clients[c].heard + BatchesOf(u)[|BatchesOf(s)|..]
    decreases |es|
  {
    hide Inv, Step, BatchesOf, FlushedNow, HasChunkClient, EncodeEach;
    if es == [] {
      assert s.clients[c].heard + [] == s.clients[c].heard && BatchesOf(s)[|BatchesOf(s)|..] == [];
    } else {
      var t, u := Step(cfg, s, es[0]), Run(cfg, s, es);
      GenerationBetween(cfg, s, es);
      assert !Displaces(es[0], c, token);
      StepIsHeard(cfg, s, es[0], c, token);
      StepNumbers(cfg, s, es[0]);
      StepKeepsInv(cfg, s, es[0]);
      forall i | 0 <= i < |es[1..]| ensures !Displaces(es[1..][i], c, token) {
        assert es[1..][i] == es[i + 1];
      }
      RunIsHeard(cfg, t, es[1..], c, token);
      HeardJoins(s.clients[c].heard, BatchesOf(s), FlushedNow(s, es[0]), BatchesOf(u));
    }
  }

  lemma HeardJoins(heard: seq<string>, before: seq<string>, now: seq<string>, after: seq<string>)
    requires before + now <= after
    ensures before <= after && heard + now + after[|before + now|..] == heard + after[|before|..]
  {
    assert after == before + now + after[|before + now|..];
    assert after[|before|..] == now + after[|before + now|..];
  }

  lemma StringRegisters(cfg: Config, r: Session, c: ClientId, token: nat, nextToken: nat)
    ensures var t := FlushLog(cfg, Register(r.(nextToken := nextToken), c, StringClient(token, false, [])));
            && t.attaching == r.attaching && t.state == r.state && t.generation == r.generation
            && t.disk == DiskFlush(r.disk, cfg.limits)
            && c in t.clients && t.clients[c].StringClient? && t.clients[c].heard == []
  {
    hide ShouldPause, DiskFlush;
  }

  lemma StringAttachEnters(cfg: Config, s: Session, c: ClientId, pid: nat, separator: string, callerToken: Option<nat>)
    requires Inv(cfg, s) && s.attaching.None? && EnsureRunning(cfg, s, pid, separator).Some?
    ensures var r := EnsureRunning(cfg, s, pid, separator).value;
            var t := AttachString(cfg, s, c, pid, separator, callerToken);
            && Inv(cfg, r) && t.attaching.None? && t.state == Running && t.generation == r.generation
            && t.disk == DiskFlush(r.disk, cfg.limits)
            && c in t.clients && t.clients[c].StringClient? && t.clients[c].heard == []
  {
    hide Inv, EnsureRunning, Register, FlushLog, DiskFlush;
    EnsureRunningKeeps(cfg, s, pid, separator);
    var r := EnsureRunning(cfg, s, pid, separator).value;
    StringRegisters(cfg, r, c, if callerToken.Some? then callerToken.value else r.nextToken,
                    if callerToken.Some? then r.nextToken else r.nextToken + 1);
  }

  /** The string attach reads the log's tail in the step that registers the client. */
  lemma StringAttachReadsTheTail(cfg: Config, s: Session, c: ClientId, pid: nat, separator: string, callerToken: Option<nat>)
    requires Inv(cfg, s) && s.attaching.None? && EnsureRunning(cfg, s, pid, separator).Some?
    ensures var r := EnsureRunning(cfg, s, pid, separator).value;
            var t := AttachString(cfg, s, c, pid, separator, callerToken);
            && Inv(cfg, t) && t.attaching.None?
            && c in t.clients && t.clients[c].StringClient? && t.clients[c].heard == []
            && IsSuffix(ReadTail(r.disk, cfg.limits), History(t.disk))
            && (|History(t.disk)| <= cfg.limits.tailBytes ==> ReadTail(r.disk, cfg.limits) == History(t.disk))
  {
    hide Inv, EnsureRunning, AttachString, ReadTail, History, IsSuffix, DiskFlush, DiskInv;
    AttachStringKeeps(cfg, s, c, pid, separator, callerToken);
    StringAttachEnters(cfg, s, c, pid, separator, callerToken);
    var r := EnsureRunning(cfg, s, pid, separator).value;
    InvDisk(cfg, r);
    ReadTailIsTailOfHistory(r.disk, cfg.limits);
    FlushedDisk(r.disk, cfg.limits);
  }

  /** Main result: a string attach is gap-free. What it is handed as its replay, followed by what it
      hears until the end of any run that does not take it off, is the newest part of the log's
      history, and all of it as long as the log fitted a tail. */
  lemma StringAttachIsGapFree(cfg: Config, s: Session, c: ClientId, pid: nat, separator: string,
                              callerToken: Option<nat>, es: seq<Event>)
    requires Inv(cfg, s) && s.attaching.None? && EnsureRunning(cfg, s, pid, separator).Some?
    ensures var replay := ReadTail(EnsureRunning(cfg, s, pid, separator).value.disk, cfg.limits);
            var t := AttachString(cfg, s, c, pid, separator, callerToken);
            var u := Run(cfg, t, es);
            && c in t.clients
            && (u.generation == t.generation && (forall i :: 0 <= i < |es| ==> !Displaces(es[i], c, t.clients[c].token)) ==>
                  && Holds(u.clients, c, t.clients[c].token) && u.clients[c].StringClient?
                  && BatchesOf(t) <= BatchesOf(u) && u.clients[c].heard == BatchesOf(u)[|BatchesOf(t)|..]
                  && IsSuffix(replay + Flat(EncodeEach(u.clients[c].heard)), History(u.disk))
                  && (|History(t.disk)| <= cfg.limits.tailBytes ==>
                        replay + Flat(EncodeEach(u.clients[c].heard)) == History(u.disk)))
  {
    hide Inv, EnsureRunning, AttachString, Run, BatchesOf, EncodeEach, Flat, History, ReadTail, IsSuffix, Displaces;
    StringAttachReadsTheTail(cfg, s, c, pid, separator, callerToken);
    var t := AttachString(cfg, s, c, pid, separator, callerToken);
    var u := Run(cfg, t, es);
    if u.generation == t.generation && forall i :: 0 <= i < |es| ==> !Displaces(es[i], c, t.clients[c].token) {
      RunIsHeard(cfg, t, es, c, t.clients[c].token);
      LogGrowsByBatches(cfg, t, es);
      var more := BatchesOf(u)[|BatchesOf(t)|..];
      assert [] + more == more;
      SuffixExtends(ReadTail(EnsureRunning(cfg, s, pid, separator).value.disk, cfg.limits), History(t.disk),
                    Flat(EncodeEach(more)));
    }
  }
}
