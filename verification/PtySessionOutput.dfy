/** Where the output of a session's processes goes over whole runs: nothing of it is lost, doubled or
    reordered on the way to the clients and to the disk log. */
module PtySessionOutput {
  import opened Wrappers
  import opened Utf8
  import opened ScrollbackSpec
  import opened SessionPolicy
  import opened PtySession
  import opened PtySessionInvariant
  import opened PtySessionEffect

  /** What the current generation's process has had flushed so far. */
  function BatchesOf(s: Session): seq<string> {
    if s.generation in s.spawns then s.spawns[s.generation].batches else []
  }

  /** The batch that this event flushes for the current generation, if it does. */
  function FlushedBy(s: Session, e: Event): Option<string> {
    if e.EvFlush? && e.g == s.generation && e.g in s.spawns && s.spawns[e.g].flushScheduled then
      Some(s.spawns[e.g].pendingData)
    else None
  }

  // ---------------------------------------------------------------- what a process prints

  /** What process `g` prints in a run: the texts of its output events, in order. */
  function Printed(es: seq<Event>, g: nat): string {
    if es == [] then ""
    else (if es[0].EvData? && es[0].g == g then es[0].text else "") + Printed(es[1..], g)
  }

  /** … counted from its spawn on, if that lies in the run; before it there is no such process. */
  function PrintedSince(cfg: Config, s: Session, es: seq<Event>, g: nat): string
    decreases |es|
  {
    if g in s.spawns then Printed(es, g)
    else if es == [] then ""
    else PrintedSince(cfg, Step(cfg, s, es[0]), es[1..], g)
  }

  /** One step: process `g` is the same one, and has printed the text of the event if that is its
      output; or it has just been spawned and has printed nothing. */
  predicate Prints(s: Session, e: Event, t: Session, g: nat) {
    && (g in s.spawns ==> g in t.spawns)
    && (g in t.spawns ==>
          t.spawns[g].emitted ==
            if g in s.spawns then s.spawns[g].emitted + (if e.EvData? && e.g == g then e.text else "") else "")
  }

  lemma StepPrints(cfg: Config, s: Session, e: Event, g: nat)
    requires Inv(cfg, s)
    ensures Prints(s, e, Step(cfg, s, e), g)
  {
    if e.EvAttachString? || e.EvAttachChunk? {
      AttachPrints(cfg, s, e, g);
    } else if e.EvFlush? {
      FlushPrints(cfg, s, e, g);
    } else if e.EvData? {
      DataPrints(cfg, s, e, g);
    } else {
      OtherKeepsSpawns(cfg, s, e);
      SameSpawnsPrint(s, e, Step(cfg, s, e), g);
    }
    hide Inv, Step, Prints;
  }

  lemma SameSpawnsPrint(s: Session, e: Event, t: Session, g: nat)
    requires t.spawns == s.spawns && !e.EvData?
    ensures Prints(s, e, t, g)
  {
    assert g in s.spawns ==> s.spawns[g].emitted + "" == s.spawns[g].emitted;
  }

  lemma DataPrints(cfg: Config, s: Session, e: Event, g: nat)
    requires Inv(cfg, s) && e.EvData?
    ensures Prints(s, e, Step(cfg, s, e), g)
  {
    hide Inv;
    assert g in s.spawns ==> s.spawns[g].emitted + "" == s.spawns[g].emitted;
  }

  lemma OtherKeepsSpawns(cfg: Config, s: Session, e: Event)
    requires !e.EvAttachString? && !e.EvAttachChunk? && !e.EvFlush? && !e.EvData?
    ensures Step(cfg, s, e).spawns == s.spawns
  {
    hide AttachString, AttachChunk, Flush, Data, ShouldPause, DiskFlush, DiskStep, DeriveEndReason, EmptyRing;
  }

  lemma FlushPrints(cfg: Config, s: Session, e: Event, g: nat)
    requires e.EvFlush?
    ensures Prints(s, e, Step(cfg, s, e), g)
  {
    hide Broadcast;
    assert g in s.spawns ==> s.spawns[g].emitted + "" == s.spawns[g].emitted;
    if e.g in s.spawns && s.spawns[e.g].flushScheduled {
      BroadcastKeepsSpawns(cfg, TakeBatch(s, e.g), e.g, s.spawns[e.g].pendingData);
    }
  }

  lemma BroadcastKeepsSpawns(cfg: Config, s: Session, g: nat, batch: string)
    ensures Broadcast(cfg, s, g, batch).spawns == s.spawns
  {
    hide DiskAppend, Encode, RingAppend, Deliver;
  }

  lemma AttachPrints(cfg: Config, s: Session, e: Event, g: nat)
    requires Inv(cfg, s) && (e.EvAttachString? || e.EvAttachChunk?)
    ensures Prints(s, e, Step(cfg, s, e), g)
  {
    hide Step, DiskInv, RingInv, WarmInv, OriginInv, IssuedInv, ClientsInv, TagsInv, StdinInv, FlowInv, LifeInv, SpawnOk,
         Record;
    assert g in s.spawns ==> s.spawns[g].emitted + "" == s.spawns[g].emitted;
    if s.attaching.Some? || EnsureRunning(cfg, s, e.pid, e.separator).None? {
      AttachRefused(cfg, s, e);
    } else {
      AttachFields(cfg, s, e);
      RecordView(cfg, s, e.separator);
    }
  }

  lemma {:induction false} PrintedAccount(cfg: Config, s: Session, es: seq<Event>, g: nat)
    requires Inv(cfg, s)
    ensures var t := Run(cfg, s, es);
            && (g in s.spawns ==> g in t.spawns)
            && (g in t.spawns ==>
                  t.spawns[g].emitted == (if g in s.spawns then s.spawns[g].emitted else "") + PrintedSince(cfg, s, es, g))
    decreases |es|
  {
    hide Inv, Step;
    if es != [] {
      var q := Step(cfg, s, es[0]);
      StepPrints(cfg, s, es[0], g);
      StepKeepsInv(cfg, s, es[0]);
      PrintedAccount(cfg, q, es[1..], g);
      if g in s.spawns {
        var now := if es[0].EvData? && es[0].g == g then es[0].text else "";
        assert s.spawns[g].emitted + now + Printed(es[1..], g) == s.spawns[g].emitted + (now + Printed(es[1..], g));
      }
    }
  }

  lemma FlushedIsPrinted(cfg: Config, s: Session, g: nat)
    requires Inv(cfg, s) && g in s.spawns
    ensures Joined(s.spawns[g].batches) + s.spawns[g].pendingData == s.spawns[g].emitted
    ensures s.spawns[g].pendingData != "" ==> s.spawns[g].flushScheduled
  {
    hide DiskInv, RingInv, WarmInv, OriginInv, IssuedInv, ClientsInv, TagsInv, StdinInv, FlowInv, LifeInv;
  }

  /** Main result: no output is lost before it is flushed. Over every run, what process `g` has had
      flushed, joined, followed by what waits for its next flush, is what it had before and then
      everything that it printed in the run, in order; and whatever waits has its flush scheduled. */
  lemma EverythingPrintedIsFlushed(cfg: Config, s: Session, es: seq<Event>, g: nat)
    requires Inv(cfg, s)
    ensures var t := Run(cfg, s, es);
            && (g in s.spawns ==>
                  && g in t.spawns
                  && Joined(t.spawns[g].batches) + t.spawns[g].pendingData ==
                     Joined(s.spawns[g].batches) + s.spawns[g].pendingData + Printed(es, g))
            && (g !in s.spawns && g in t.spawns ==>
                  Joined(t.spawns[g].batches) + t.spawns[g].pendingData == PrintedSince(cfg, s, es, g))
            && (g in t.spawns && t.spawns[g].pendingData != "" ==> t.spawns[g].flushScheduled)
  {
    hide Inv, Run, Joined;
    var t := Run(cfg, s, es);
    RunKeepsInv(cfg, s, es);
    PrintedAccount(cfg, s, es, g);
    if g in s.spawns {
      FlushedIsPrinted(cfg, s, g);
    }
    if g in t.spawns {
      FlushedIsPrinted(cfg, t, g);
      assert "" + PrintedSince(cfg, s, es, g) == PrintedSince(cfg, s, es, g);
    }
  }

  /** Output schedules its flush, and a flush leaves nothing behind and nothing scheduled. */
  lemma OutputSchedulesItsFlush(cfg: Config, s: Session, g: nat, text: string)
    requires g in s.spawns
    ensures var t := Step(cfg, s, EvData(g, text));
            && g in t.spawns && t.spawns[g].flushScheduled
            && t.spawns[g].pendingData == s.spawns[g].pendingData + text && t.spawns[g].batches == s.spawns[g].batches
    ensures var u := Step(cfg, s, EvFlush(g));
            && g in u.spawns && !u.spawns[g].flushScheduled
            && (s.spawns[g].flushScheduled ==>
                  u.spawns[g].pendingData == "" && u.spawns[g].batches == s.spawns[g].batches + [s.spawns[g].pendingData])
            && (!s.spawns[g].flushScheduled ==> u == s)
  {
    hide DiskAppend, Encode, RingAppend, Deliver;
  }

  // ---------------------------------------------------------------- clients

  /** The client is the same attach, and has received nothing. */
  ghost predicate Untouched(s: Session, t: Session, c: ClientId)
    requires c in t.clients
  {
    c in s.clients && s.clients[c].token == t.clients[c].token &&
    match t.clients[c]
    case StringClient(_, _, heard) => s.clients[c].StringClient? && heard == s.clients[c].heard
    case ChunkClient(_, _, frames) => s.clients[c].ChunkClient? && frames == s.clients[c].frames
  }

  /** The client that this event may attach. */
  function Entrant(s: Session, e: Event): Option<ClientId> {
    match e
    case EvAttachString(c, _, _, _) => Some(c)
    case EvAttachChunk(c, _, _, _, _) => Some(c)
    case EvFinishAttach => s.attaching
    case _ => None
  }

  ghost predicate JustEntered(s: Session, e: Event, t: Session, c: ClientId)
    requires c in t.clients
  {
    Entrant(s, e) == Some(c) &&
    match t.clients[c]
    case StringClient(_, _, heard) => heard == []
    case ChunkClient(token, _, _) => token >= s.nextToken
  }

  /** A step that flushes nothing for the current generation: within a generation its batches stay
      as they are, and whoever did not just enter is the attach it was and has received nothing. */
  ghost predicate Quiet(s: Session, e: Event, t: Session) {
    && (t.generation == s.generation ==> BatchesOf(t) == BatchesOf(s))
    && (forall c :: c in t.clients ==> JustEntered(s, e, t, c) || (t.generation == s.generation && Untouched(s, t, c)))
  }

  /** Two states that agree on everything this module looks at. */
  ghost predicate SameView(a: Session, b: Session) {
    && a.generation == b.generation && a.spawns == b.spawns && a.clients == b.clients
  }

  lemma QuietView(s: Session, e: Event, u: Session, t: Session)
    requires Quiet(s, e, u) && SameView(t, u)
    ensures Quiet(s, e, t)
  {
  }

  lemma PauseView(s: Session)
    ensures SameView(ApplyPause(s), s)
  {
    hide ShouldPause;
  }

  lemma NothingIsQuiet(s: Session, e: Event)
    ensures Quiet(s, e, s)
  {
  }

  /** Getting a session to run enters nobody. */
  lemma EnsureRunningQuiet(cfg: Config, s: Session, pid: nat, separator: string)
    requires Inv(cfg, s) && EnsureRunning(cfg, s, pid, separator).Some?
    ensures var r := EnsureRunning(cfg, s, pid, separator).value;
            && (r.generation == s.generation ==> BatchesOf(r) == BatchesOf(s) && r.clients == s.clients)
            && (r.generation != s.generation ==> r.clients == map[])
  {
    hide DiskInv, RingInv, WarmInv, OriginInv, IssuedInv, ClientsInv, TagsInv, StdinInv, FlowInv, Record, SpawnOk;
    RecordView(cfg, s, separator);
  }

  lemma RecordView(cfg: Config, s: Session, text: string)
    ensures SameView(Record(cfg, s, s.generation, text), s)
  {
    hide DiskAppend, Encode;
  }

  lemma EnterQuiet(cfg: Config, s: Session, e: Event, pid: nat, separator: string, c: ClientId, client: Client, t: Session)
    requires Entrant(s, e) == Some(c)
    requires Inv(cfg, s) && EnsureRunning(cfg, s, pid, separator).Some?
    requires var r := EnsureRunning(cfg, s, pid, separator).value;
             t.generation == r.generation && t.spawns == r.spawns && t.clients == r.clients[c := client]
    requires match client case StringClient(_, _, heard) => heard == [] case ChunkClient(token, _, _) => token >= s.nextToken
    ensures Quiet(s, e, t)
  {
    EnsureRunningQuiet(cfg, s, pid, separator);
    hide EnsureRunning, Inv;
  }

  lemma WaitQuiet(cfg: Config, s: Session, e: Event, pid: nat, separator: string, t: Session)
    requires Inv(cfg, s) && EnsureRunning(cfg, s, pid, separator).Some?
    requires SameView(t, EnsureRunning(cfg, s, pid, separator).value)
    ensures Quiet(s, e, t)
  {
    EnsureRunningQuiet(cfg, s, pid, separator);
    hide EnsureRunning, Inv;
  }

  lemma AttachStringQuiet(cfg: Config, s: Session, e: Event)
    requires Inv(cfg, s) && e.EvAttachString?
    ensures Quiet(s, e, Step(cfg, s, e))
  {
    hide Inv, Quiet, EnsureRunning, ApplyPause, DiskFlush;
    NothingIsQuiet(s, e);
    var running := EnsureRunning(cfg, s, e.pid, e.separator);
    if s.attaching.None? && running.Some? {
      var r := running.value;
      var token := if e.callerToken.Some? then e.callerToken.value else r.nextToken;
      var client := StringClient(token, false, []);
      var entered := r.(nextToken := if e.callerToken.Some? then r.nextToken else r.nextToken + 1,
                        clients := r.clients[e.c := client]);
      PauseView(entered);
      EnterQuiet(cfg, s, e, e.pid, e.separator, e.c, client, Step(cfg, s, e));
    }
  }

  lemma RegisterChunkView(s: Session, c: ClientId, frames: seq<Frame>)
    ensures SameView(RegisterChunk(s, c, frames), s.(clients := s.clients[c := ChunkClient(s.nextToken, false, frames)]))
  {
    hide ShouldPause;
  }

  /** A chunk attach ends with what it got running, waiting or with the client entered. */
  lemma AttachChunkView(cfg: Config, s: Session, e: Event)
    requires e.EvAttachChunk? && s.attaching.None? && EnsureRunning(cfg, s, e.pid, e.separator).Some?
    ensures var r, t := EnsureRunning(cfg, s, e.pid, e.separator).value, Step(cfg, s, e);
            || SameView(t, r)
            || (t.generation == r.generation && t.spawns == r.spawns && e.c in t.clients &&
                t.clients == r.clients[e.c := t.clients[e.c]] &&
                t.clients[e.c].ChunkClient? && t.clients[e.c].token == r.nextToken)
  {
    hide EnsureRunning, RegisterChunk, Step, ReadTail, BuildReplay, OpenReplay, DiskFlush;
    var r := EnsureRunning(cfg, s, e.pid, e.separator).value;
    var frames := AttachChunkForms(cfg, s, e);
    RegisterChunkView(r, e.c, frames);
    RegisterChunkView(FlushLog(cfg, r), e.c, frames);
  }

  lemma AttachChunkQuiet(cfg: Config, s: Session, e: Event)
    requires Inv(cfg, s) && e.EvAttachChunk?
    ensures Quiet(s, e, Step(cfg, s, e))
  {
    hide Inv, Quiet, EnsureRunning, MadeRunning;
    NothingIsQuiet(s, e);
    var running := EnsureRunning(cfg, s, e.pid, e.separator);
    if s.attaching.None? && running.Some? {
      var r, t := running.value, Step(cfg, s, e);
      EnsureRunningMakesRunning(cfg, s, e.pid, e.separator);
      MadeRunningTokens(s, r);
      AttachChunkView(cfg, s, e);
      hide Step;
      if SameView(t, r) {
        WaitQuiet(cfg, s, e, e.pid, e.separator, t);
      } else {
        EnterQuiet(cfg, s, e, e.pid, e.separator, e.c, t.clients[e.c], t);
      }
    }
  }

  lemma FinishQuiet(cfg: Config, s: Session)
    ensures Quiet(s, EvFinishAttach, Step(cfg, s, EvFinishAttach))
  {
    hide RegisterChunk;
    if s.attaching.Some? {
      RegisterChunkView(s.(attaching := None, replay := None), s.attaching.value, []);
    }
  }

  lemma DetachQuiet(cfg: Config, s: Session, e: Event)
    requires e.EvDetach? || e.EvSetFlow?
    ensures Quiet(s, e, Step(cfg, s, e))
  {
    hide ApplyPause, Quiet, BatchesOf;
    NothingIsQuiet(s, e);
    if e.EvDetach? {
      var left := s.(clients := s.clients - {e.c});
      LeaveQuiet(s, e, e.c);
      PauseView(left);
      QuietView(s, e, left, ApplyPause(left));
    } else if e.c in s.clients {
      var flagged := s.(clients := s.clients[e.c := s.clients[e.c].(flowPaused := e.paused)]);
      ReflagQuiet(s, e, e.c, e.paused);
      PauseView(flagged);
      QuietView(s, e, flagged, ApplyPause(flagged));
    }
  }

  lemma LeaveQuiet(s: Session, e: Event, c: ClientId)
    ensures Quiet(s, e, s.(clients := s.clients - {c}))
  {
  }

  lemma ReflagQuiet(s: Session, e: Event, c: ClientId, paused: bool)
    requires c in s.clients
    ensures Quiet(s, e, s.(clients := s.clients[c := s.clients[c].(flowPaused := paused)]))
  {
  }

  /** The generation, the batches of its process and the clients are as they were. */
  ghost predicate SameOutput(a: Session, b: Session) {
    a.generation == b.generation && BatchesOf(a) == BatchesOf(b) && a.clients == b.clients
  }

  lemma SameOutputIsQuiet(s: Session, e: Event, t: Session)
    requires SameOutput(t, s)
    ensures Quiet(s, e, t)
  {
    hide BatchesOf;
  }

  lemma DataSameOutput(s: Session, g: nat, text: string)
    ensures SameOutput(Data(s, g, text), s)
  {
  }

  lemma StaleFlushSameOutput(cfg: Config, s: Session, g: nat)
    requires FlushedBy(s, EvFlush(g)).None?
    ensures SameOutput(Flush(cfg, s, g), s)
  {
    hide Broadcast;
  }

  lemma OtherQuiet(cfg: Config, s: Session, e: Event)
    requires e.EvExit? || e.EvRestart? || e.EvShutdown? || e.EvWrite? || e.EvLogTimer? || e.EvLogFlush? || e.EvCacheDrop? ||
             e.EvOtherSessionMints? || e.EvFirstWriteDone?
    ensures Quiet(s, e, Step(cfg, s, e))
  {
    hide BatchesOf, DeriveEndReason, EmptyRing, AttachString, AttachChunk, FinishAttach, Detach, SetFlow, Data, Flush,
         DiskFlush, DiskStep;
    if e.EvRestart? && Step(cfg, s, e) != s {
      assert Step(cfg, s, e).clients == map[];
    } else {
      assert SameView(Step(cfg, s, e), s);
      NothingIsQuiet(s, e);
      QuietView(s, e, s, Step(cfg, s, e));
    }
  }

  /** Every step that flushes nothing for the current generation is quiet. */
  lemma StepIsQuiet(cfg: Config, s: Session, e: Event)
    requires Inv(cfg, s) && FlushedBy(s, e).None?
    ensures Quiet(s, e, Step(cfg, s, e))
  {
    hide Inv, Quiet, AttachString, AttachChunk, FinishAttach, Detach, SetFlow, Data, Flush, SameOutput;
    match e
    case EvAttachString(_, _, _, _) => AttachStringQuiet(cfg, s, e);
    case EvAttachChunk(_, _, _, _, _) => AttachChunkQuiet(cfg, s, e);
    case EvFinishAttach => FinishQuiet(cfg, s);
    case EvDetach(_, _) => DetachQuiet(cfg, s, e);
    case EvSetFlow(_, _) => DetachQuiet(cfg, s, e);
    case EvData(g, text) =>
      DataSameOutput(s, g, text);
      SameOutputIsQuiet(s, e, Data(s, g, text));
    case EvFlush(g) =>
      StaleFlushSameOutput(cfg, s, g);
      SameOutputIsQuiet(s, e, Flush(cfg, s, g));
    case _ => OtherQuiet(cfg, s, e);
  }

  lemma FlushIsBroadcast(cfg: Config, s: Session, e: Event)
    requires FlushedBy(s, e).Some?
    ensures e.EvFlush? && e.g == s.generation && e.g in s.spawns
    ensures Step(cfg, s, e) == Broadcast(cfg, TakeBatch(s, e.g), e.g, FlushedBy(s, e).value)
    ensures BatchesOf(TakeBatch(s, e.g)) == BatchesOf(s) + [FlushedBy(s, e).value]
  {
    hide Broadcast;
  }

  lemma BroadcastReaches(cfg: Config, s: Session, g: nat, batch: string, c: ClientId)
    ensures var t := Broadcast(cfg, s, g, batch);
            && t.generation == s.generation && t.spawns == s.spawns && t.clients.Keys == s.clients.Keys
            && (c in s.clients ==>
                  match s.clients[c]
                  case StringClient(token, paused, heard) => t.clients[c] == StringClient(token, paused, heard + [batch])
                  case ChunkClient(token, paused, frames) =>
                    exists frame :: t.clients[c] == ChunkClient(token, paused, frames + [frame]) && frame.data == Encode(batch))
  {
    hide DiskAppend, Encode, RingAppend;
  }

  /** A flush of the current generation adds one batch, and everyone attached receives it. */
  lemma FlushReachesEveryone(cfg: Config, s: Session, e: Event, c: ClientId)
    requires FlushedBy(s, e).Some?
    ensures var t, batch := Step(cfg, s, e), FlushedBy(s, e).value;
            && t.generation == s.generation && BatchesOf(t) == BatchesOf(s) + [batch]
            && t.clients.Keys == s.clients.Keys
            && (c in s.clients ==>
                  match s.clients[c]
                  case StringClient(token, paused, heard) => t.clients[c] == StringClient(token, paused, heard + [batch])
                  case ChunkClient(token, paused, frames) =>
                    && t.clients[c].ChunkClient? && t.clients[c].token == token
                    && |t.clients[c].frames| == |frames| + 1 && t.clients[c].frames[..|frames|] == frames
                    && t.clients[c].frames[|frames|].data == Encode(batch))
  {
    FlushIsBroadcast(cfg, s, e);
    BroadcastReaches(cfg, TakeBatch(s, e.g), e.g, FlushedBy(s, e).value, c);
    hide Step, Broadcast, FlushedBy, Encode;
  }

  // ---------------------------------------------------------------- string clients

  /** What a string client has heard are the newest batches of the current process, in order. */
  predicate HeardOk(client: Client, batches: seq<string>) {
    client.StringClient? ==>
      |client.heard| <= |batches| && client.heard == batches[|batches| - |client.heard|..]
  }

  predicate HeardInv(s: Session) {
    forall c :: c in s.clients ==> HeardOk(s.clients[c], BatchesOf(s))
  }

  lemma HeardMore(heard: seq<string>, batches: seq<string>, batch: string, token: nat, paused: bool)
    requires HeardOk(StringClient(token, paused, heard), batches)
    ensures HeardOk(StringClient(token, paused, heard + [batch]), batches + [batch])
  {
    var more := batches + [batch];
    assert heard + [batch] == more[|more| - |heard + [batch]|..];
  }

  lemma StepKeepsHeard(cfg: Config, s: Session, e: Event)
    requires Inv(cfg, s) && HeardInv(s)
    ensures HeardInv(Step(cfg, s, e))
  {
    hide Inv, Step, FlushedBy, BatchesOf, HeardOk;
    var t := Step(cfg, s, e);
    if FlushedBy(s, e).None? {
      StepIsQuiet(cfg, s, e);
      forall c | c in t.clients ensures HeardOk(t.clients[c], BatchesOf(t)) {
        QuietClientHeard(s, e, t, c);
      }
    } else {
      forall c | c in t.clients ensures HeardOk(t.clients[c], BatchesOf(t)) {
        FlushReachesEveryone(cfg, s, e, c);
        if s.clients[c].StringClient? {
          var k := s.clients[c];
          HeardMore(k.heard, BatchesOf(s), FlushedBy(s, e).value, k.token, k.flowPaused);
        } else {
          ChunkClientsHearNothing(t.clients[c], BatchesOf(t));
        }
      }
    }
  }

  lemma ChunkClientsHearNothing(client: Client, batches: seq<string>)
    requires client.ChunkClient?
    ensures HeardOk(client, batches)
  {
  }

  lemma QuietClientHeard(s: Session, e: Event, t: Session, c: ClientId)
    requires Quiet(s, e, t) && c in t.clients && (c in s.clients ==> HeardOk(s.clients[c], BatchesOf(s)))
    ensures HeardOk(t.clients[c], BatchesOf(t))
  {
    hide BatchesOf;
  }

  /** Main result: over every run, what each string client has heard is an unbroken run of what the
      current process had flushed, up to the newest batch. */
  lemma {:induction false} StringClientsHearTheOutput(cfg: Config, s: Session, es: seq<Event>)
    requires Inv(cfg, s) && HeardInv(s)
    ensures HeardInv(Run(cfg, s, es))
    decreases |es|
  {
    hide Inv, Step, HeardInv;
    if es != [] {
      StepKeepsInv(cfg, s, es[0]);
      StepKeepsHeard(cfg, s, es[0]);
      StringClientsHearTheOutput(cfg, Step(cfg, s, es[0]), es[1..]);
    }
  }

  // ---------------------------------------------------------------- chunk clients

  function Datas(frames: seq<Frame>): (r: seq<Bytes>)
    ensures |r| == |frames|
  {
    seq(|frames|, i requires 0 <= i < |frames| => frames[i].data)
  }

  /** Since there were `n` batches and the attach held `before`, it has received every batch. */
  predicate LiveFrom(s: Session, c: ClientId, token: nat, g: nat, before: seq<Bytes>, n: nat) {
    Attached(s.clients, c, token) ==>
      && s.generation == g && n <= |BatchesOf(s)|
      && Datas(s.clients[c].frames) == before + EncodeEach(BatchesOf(s)[n..])
  }

  lemma OneMoreBatch(frames: seq<Frame>, more: seq<Frame>, before: seq<Bytes>, batches: seq<string>, batch: string, n: nat)
    requires n <= |batches| && Datas(frames) == before + EncodeEach(batches[n..])
    requires |more| == |frames| + 1 && more[..|frames|] == frames && more[|frames|].data == Encode(batch)
    ensures Datas(more) == before + EncodeEach((batches + [batch])[n..])
  {
    assert (batches + [batch])[n..] == batches[n..] + [batch];
    assert EncodeEach(batches[n..] + [batch]) == EncodeEach(batches[n..]) + [Encode(batch)];
    assert Datas(more) == Datas(frames) + [Encode(batch)] by {
      assert forall i :: 0 <= i < |frames| ==> more[i] == more[..|frames|][i];
    }
  }

  lemma StepKeepsLive(cfg: Config, s: Session, e: Event, c: ClientId, token: nat, g: nat, before: seq<Bytes>, n: nat)
    requires Inv(cfg, s) && token < s.nextToken && LiveFrom(s, c, token, g, before, n)
    ensures LiveFrom(Step(cfg, s, e), c, token, g, before, n) && token < Step(cfg, s, e).nextToken
  {
    hide Inv, Step, FlushedBy, BatchesOf, Datas, EncodeEach, LifeEffect, HistoryEffect, AttachingEffect;
    var t := Step(cfg, s, e);
    StepEffect(cfg, s, e);
    TokensGrow(cfg, s, e);
    if Attached(t.clients, c, token) {
      assert KeptClient(s, t, c);
      if FlushedBy(s, e).None? {
        StepIsQuiet(cfg, s, e);
        assert Untouched(s, t, c);
      } else {
        FlushReachesEveryone(cfg, s, e, c);
        OneMoreBatch(s.clients[c].frames, t.clients[c].frames, before, BatchesOf(s), FlushedBy(s, e).value, n);
      }
    }
  }

  lemma TokensGrow(cfg: Config, s: Session, e: Event)
    ensures Step(cfg, s, e).nextToken >= s.nextToken
  {
    hide Step;
    StepEffect(cfg, s, e);
  }

  lemma {:induction false} RunKeepsLive(cfg: Config, s: Session, es: seq<Event>, c: ClientId, token: nat, g: nat,
                                        before: seq<Bytes>, n: nat)
    requires Inv(cfg, s) && token < s.nextToken && LiveFrom(s, c, token, g, before, n)
    ensures LiveFrom(Run(cfg, s, es), c, token, g, before, n)
    decreases |es|
  {
    hide Inv, Step, LiveFrom;
    if es != [] {
      StepKeepsLive(cfg, s, es[0], c, token, g, before, n);
      StepKeepsInv(cfg, s, es[0]);
      RunKeepsLive(cfg, Step(cfg, s, es[0]), es[1..], c, token, g, before, n);
    }
  }

  /** Main result: a chunk client that stays attached receives, byte for byte and in order, every
      batch that the process has flushed since, whatever happens in between. */
  lemma LiveFramesAreTheOutput(cfg: Config, s: Session, es: seq<Event>, c: ClientId, token: nat)
    requires Inv(cfg, s) && token < s.nextToken && Attached(s.clients, c, token)
    ensures var u, n := Run(cfg, s, es), |BatchesOf(s)|;
            Attached(u.clients, c, token) ==>
              && u.generation == s.generation && n <= |BatchesOf(u)|
              && Datas(u.clients[c].frames) == Datas(s.clients[c].frames) + EncodeEach(BatchesOf(u)[n..])
  {
    hide Inv, Run, BatchesOf, Datas;
    var before := Datas(s.clients[c].frames);
    assert BatchesOf(s)[|BatchesOf(s)|..] == [];
    assert before + EncodeEach([]) == before;
    RunKeepsLive(cfg, s, es, c, token, s.generation, before, |BatchesOf(s)|);
  }

  /** What a client holds tells it the batches: no two outputs look alike. */
  lemma FramesTellBatches(a: seq<string>, b: seq<string>)
    requires EncodeEach(a) == EncodeEach(b)
    ensures a == b
  {
    hide Encode;
    assert |a| == |b|;
    forall i | 0 <= i < |a| ensures a[i] == b[i] {
      assert EncodeEach(a)[i] == EncodeEach(b)[i];
      EncodeInjective(a[i], b[i]);
    }
  }

  // ---------------------------------------------------------------- the disk log

  predicate Resumes(s: Session) {
    s.attaching.None? && s.state == Ended && IsAutoResumable(s.command, s.endReason)
  }

  /** What an event adds to the log: a batch flushed for the current generation, or the separator of
      a silent resume. */
  function LoggedBy(s: Session, e: Event): Bytes {
    if FlushedBy(s, e).Some? then Encode(FlushedBy(s, e).value)
    else if e.EvAttachString? && Resumes(s) then Encode(e.separator)
    else if e.EvAttachChunk? && Resumes(s) then Encode(e.separator)
    else []
  }

  function LoggedAll(cfg: Config, s: Session, es: seq<Event>): Bytes
    decreases |es|
  {
    if es == [] then [] else LoggedBy(s, es[0]) + LoggedAll(cfg, Step(cfg, s, es[0]), es[1..])
  }

  lemma EnsureRunningLogs(cfg: Config, s: Session, pid: nat, separator: string)
    requires DiskInv(s.disk, cfg.limits) && s.attaching.None?
    ensures EnsureRunning(cfg, s, pid, separator).None? ==> !Resumes(s)
    ensures EnsureRunning(cfg, s, pid, separator).Some? ==>
              var r := EnsureRunning(cfg, s, pid, separator).value;
              && DiskInv(r.disk, cfg.limits)
              && History(r.disk) == History(s.disk) + if Resumes(s) then Encode(separator) else []
  {
    hide DiskInv, DiskAppend, History, Encode, IsAutoResumable;
    AppendExtendsHistory(s.disk, Encode(separator), cfg.limits);
    assert History(s.disk) + [] == History(s.disk);
  }

  lemma RefusedDoesNotResume(cfg: Config, s: Session, e: Event)
    requires e.EvAttachString? || e.EvAttachChunk?
    requires s.attaching.Some? || EnsureRunning(cfg, s, e.pid, e.separator).None?
    ensures !Resumes(s)
  {
    hide IsAutoResumable, AutoResume, SpawnProcess;
  }

  lemma LoggedByAttach(s: Session, e: Event)
    requires e.EvAttachString? || e.EvAttachChunk?
    ensures LoggedBy(s, e) == if Resumes(s) then Encode(e.separator) else []
  {
    hide Resumes, Encode;
  }

  lemma AttachLogs(cfg: Config, s: Session, e: Event)
    requires DiskInv(s.disk, cfg.limits) && (e.EvAttachString? || e.EvAttachChunk?)
    ensures DiskInv(Step(cfg, s, e).disk, cfg.limits)
    ensures History(Step(cfg, s, e).disk) == History(s.disk) + LoggedBy(s, e)
  {
    hide Step, EnsureRunning, DiskFlush, History, Encode, DiskInv, Resumes, LoggedBy;
    assert History(s.disk) + [] == History(s.disk);
    LoggedByAttach(s, e);
    if s.attaching.Some? || EnsureRunning(cfg, s, e.pid, e.separator).None? {
      AttachRefused(cfg, s, e);
      RefusedDoesNotResume(cfg, s, e);
    } else {
      EnsureRunningLogs(cfg, s, e.pid, e.separator);
      AttachFields(cfg, s, e);
      FlushedDisk(EnsureRunning(cfg, s, e.pid, e.separator).value.disk, cfg.limits);
    }
  }

  lemma FlushedDisk(d: Disk, l: Limits)
    requires DiskInv(d, l)
    ensures DiskInv(DiskFlush(d, l), l) && History(DiskFlush(d, l)) == History(d)
  {
    FlushKeepsHistory(d, l);
    hide DiskFlush, History;
  }

  lemma FlushLogs(cfg: Config, s: Session, e: Event)
    requires DiskInv(s.disk, cfg.limits) && FlushedBy(s, e).Some?
    ensures DiskInv(Step(cfg, s, e).disk, cfg.limits)
    ensures History(Step(cfg, s, e).disk) == History(s.disk) + LoggedBy(s, e)
  {
    hide DiskInv, DiskAppend, History, Encode, RingAppend, Deliver;
    AppendExtendsHistory(s.disk, Encode(FlushedBy(s, e).value), cfg.limits);
  }

  lemma StepLogs(cfg: Config, s: Session, e: Event)
    requires DiskInv(s.disk, cfg.limits)
    ensures DiskInv(Step(cfg, s, e).disk, cfg.limits)
    ensures History(Step(cfg, s, e).disk) == History(s.disk) + LoggedBy(s, e)
  {
    assert History(s.disk) + [] == History(s.disk);
    if FlushedBy(s, e).Some? {
      FlushLogs(cfg, s, e);
    } else if e.EvAttachString? || e.EvAttachChunk? {
      AttachLogs(cfg, s, e);
    } else {
      OtherDisk(cfg, s, e);
      DiskStepRefinesHistory(s.disk, TimerFires, cfg.limits);
      DiskStepRefinesHistory(s.disk, FlushNow, cfg.limits);
      hide Step, DiskInv, DiskStep, History;
    }
  }

  lemma OtherDisk(cfg: Config, s: Session, e: Event)
    requires FlushedBy(s, e).None? && !e.EvAttachString? && !e.EvAttachChunk?
    ensures var t := Step(cfg, s, e);
            || t.disk == s.disk || t.disk == DiskStep(s.disk, TimerFires, cfg.limits)
            || t.disk == DiskStep(s.disk, FlushNow, cfg.limits)
  {
    hide DiskFlush, ShouldPause, Broadcast;
  }

  /** Main result: over every run the log's history grows by exactly the output flushed for what was
      then the current generation and the separators of silent resumes, in their order; in particular
      by nothing that a superseded process had left behind. */
  lemma {:induction false} LogIsTheOutput(cfg: Config, s: Session, es: seq<Event>)
    requires DiskInv(s.disk, cfg.limits)
    ensures History(Run(cfg, s, es).disk) == History(s.disk) + LoggedAll(cfg, s, es)
    decreases |es|
  {
    hide Step, DiskInv, History, LoggedBy;
    if es == [] {
      assert History(s.disk) + [] == History(s.disk);
    } else {
      var t := Step(cfg, s, es[0]);
      StepLogs(cfg, s, es[0]);
      LogIsTheOutput(cfg, t, es[1..]);
      ConcatAssociates(History(s.disk), LoggedBy(s, es[0]), LoggedAll(cfg, t, es[1..]));
    }
  }

  /** The generation on whose behalf an event writes to the log, if it does. */
  function TagOf(s: Session, e: Event): seq<nat> {
    if FlushedBy(s, e).Some? || ((e.EvAttachString? || e.EvAttachChunk?) && Resumes(s)) then [s.generation] else []
  }

  function TagsOf(cfg: Config, s: Session, es: seq<Event>): seq<nat>
    decreases |es|
  {
    if es == [] then [] else TagOf(s, es[0]) + TagsOf(cfg, Step(cfg, s, es[0]), es[1..])
  }

  lemma FlushTags(cfg: Config, s: Session, e: Event)
    requires FlushedBy(s, e).Some?
    ensures Step(cfg, s, e).logTags == s.logTags + [s.generation]
  {
    hide DiskAppend, Encode, RingAppend, Deliver;
  }

  lemma AttachTags(cfg: Config, s: Session, e: Event)
    requires e.EvAttachString? || e.EvAttachChunk?
    ensures Step(cfg, s, e).logTags == s.logTags + if Resumes(s) then [s.generation] else []
  {
    assert s.logTags + [] == s.logTags;
    if s.attaching.Some? || EnsureRunning(cfg, s, e.pid, e.separator).None? {
      AttachRefused(cfg, s, e);
      RefusedDoesNotResume(cfg, s, e);
    } else {
      AttachKeepsTags(cfg, s, e);
      EnsureRunningTags(cfg, s, e.pid, e.separator);
    }
    hide Step, EnsureRunning, Resumes;
  }

  lemma EnsureRunningTags(cfg: Config, s: Session, pid: nat, separator: string)
    requires s.attaching.None? && EnsureRunning(cfg, s, pid, separator).Some?
    ensures EnsureRunning(cfg, s, pid, separator).value.logTags ==
              if Resumes(s) then s.logTags + [s.generation] else s.logTags
  {
    hide DiskAppend, Encode, IsAutoResumable, WriteWarm, WriteReplay;
  }

  lemma AttachKeepsTags(cfg: Config, s: Session, e: Event)
    requires e.EvAttachString? || e.EvAttachChunk?
    requires s.attaching.None? && EnsureRunning(cfg, s, e.pid, e.separator).Some?
    ensures Step(cfg, s, e).logTags == EnsureRunning(cfg, s, e.pid, e.separator).value.logTags
  {
    hide EnsureRunning, ReadSince, ReadTail, TagAll, ParseLastSeen, BuildReplay, OpenReplay, DiskFlush, ShouldPause;
    if e.EvAttachChunk? {
      var frames := AttachChunkForms(cfg, s, e);
      hide AttachChunk;
    }
  }

  lemma OtherKeepsTags(cfg: Config, s: Session, e: Event)
    requires FlushedBy(s, e).None? && !e.EvAttachString? && !e.EvAttachChunk?
    ensures Step(cfg, s, e).logTags == s.logTags
  {
    hide Broadcast, ShouldPause, DiskFlush, DiskStep, DeriveEndReason, EmptyRing, AttachString, AttachChunk;
  }

  lemma StepTags(cfg: Config, s: Session, e: Event)
    ensures Step(cfg, s, e).logTags == s.logTags + TagOf(s, e)
  {
    assert s.logTags + [] == s.logTags;
    if FlushedBy(s, e).Some? {
      FlushTags(cfg, s, e);
    } else if e.EvAttachString? || e.EvAttachChunk? {
      AttachTags(cfg, s, e);
    } else {
      OtherKeepsTags(cfg, s, e);
    }
    hide Step, FlushedBy, Resumes;
  }

  /** Over every run the log is tagged with the generation of each of its writes, and each tag belongs to
      a write that the events account for. */
  lemma {:induction false} TagsAreTheWriters(cfg: Config, s: Session, es: seq<Event>)
    ensures Run(cfg, s, es).logTags == s.logTags + TagsOf(cfg, s, es)
    decreases |es|
  {
    hide Step, TagOf;
    if es == [] {
      assert s.logTags + [] == s.logTags;
    } else {
      StepTags(cfg, s, es[0]);
      TagsAreTheWriters(cfg, Step(cfg, s, es[0]), es[1..]);
    }
  }
}
