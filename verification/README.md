# PTY output, replay and reattach: a verified model

A terminal that reconnects should see the bytes it missed, under the generation that produced them,
and nothing from an older process. This project models the engine that decides that, proves what it
keeps over every run, and says exactly when a reconnect brings everything.

## What is modelled

* **A session of the in-process host** (`PtySession.dfy`): a state machine whose steps are attach
  (string or chunk client), the two ends of an awaited full replay, detach, pause and resume, process
  output, the flush callback, process exit, restart, shutdown, input, and the timers of the disk log
  and the warm cache. A step is what the event loop runs between two awaits. While a full replay is
  awaited the session mutex is held: steps that need the mutex wait, the flush callback does not.
  An await on a promise that is already settled lets no `setImmediate` callback in, so reading the
  log tail and queueing it on a rebuilt terminal are one step. A rebuilt replay is open while its
  first write is in flight; then, and on the warm path from the beginning, what the snapshot reads
  is fixed.
  Beside the host's own fields the state carries observations: the chunks numbered in each
  generation, every (generation, number) pair given out, the generation behind every append to the
  disk log, and what each process read on stdin. `PtySessionInvariant.dfy` proves the invariant of
  every reachable state, `PtySessionEffect.dfy` what one step may change, and
  `PtySessionTheorems.dfy`, `PtySessionOutput.dfy` and `PtySessionReplay.dfy` the statements about
  whole runs, `PtySessionReconnect.dfy` what a reconnect brings and what it misses, and
  `PtySessionRequests.dfy` when a request has its effect.
* **The same session as a mutable object** (`InProcessHost.dfy`): class `ManagedSession` with the
  host's fields, callbacks and loops. Every method ends in exactly the state that the step of the
  same name computes, so the theorems about runs are theorems about the object.
* **The scrollback log** (`ScrollbackSpec.dfy`, class `Log` in `ScrollbackLog.dfy`): the buffered,
  rotated file against an unbounded byte history, and the chunk ring against the list of everything
  numbered in its generation.
* **The headless replay** (`Sgr.dfy`, `Snapshot.dfy`, `StateCache.dfy`, `WarmSession.dfy`,
  `WarmRuns.dfy`): the line serializer against a small ECMA-48 terminal, the byte-budgeted snapshot,
  the bounded cache of warm terminals, that cache as one session sees it, and the two run side by
  side. A warm terminal is everything that was written to it.
* **The daemon connection** (`RequestCorrelator.dfy`, `ConnectionLifecycle.dfy`,
  `RemoteProtocol.dfy`, `SessionMirror.dfy`, `RemoteHost.dfy`): handshake, request matching, the
  generation latch, and the fan-out of DATA frames.
* **Text and wire** (`Utf8.dfy`, `Decimal.dfy`, `FrameCodec.dfy`, `Osc7.dfy`, `SessionPolicy.dfy`),
  **the mutex** (`PromiseMutex.dfy`) and three satellites: the depth-bounded process walk
  (`ProcessTree.dfy`), the pane prune (`PanePrune.dfy`) and the agent detector (`AgentDetector.dfy`).

`dafny verify dfyconfig.toml` checks everything.

## Where the code and its comments disagree

The model follows the code.

* `packages/server/src/pty/scrollback-log.ts:290` says a cursor below `oldestSeq` needs a full
  replay; the code (`:305`) compares with `oldest - 1`, so a cursor just before the oldest retained
  chunk is served by a delta. `ReadSinceDecides` proves that the code's bound is the exact one.
* `packages/server/src/pty/scrollback-log.ts:86` explains `none` as "no cursor or an empty ring"; the
  code also answers `none` to a cursor that has seen everything (`:302`).
* `packages/server/src/pty/in-process-host.ts:668-671` says that broadcasts queue behind an attach;
  the flush callback (`:1229`) takes no mutex and may run while a full replay is awaited. A batch
  flushed then is not sent, whether or not another client makes it numbered; it is in the replay
  only if the rebuilt terminal's first write was still in flight. `FullReplayAccount` states what
  that costs.

## Claims that hold only under a condition

* A client that comes back with the newest cursor it saw, all of what follows still being retained,
  receives everything flushed since exactly if no scheduled flush of the process ran while no chunk
  client was attached: a batch is numbered only while there is one, and no cursor asks for a batch
  without a number. `ReconnectAccount` gives what is received in any case and the exact condition,
  `CompanionHearsAll` a way to meet it, `SoleClientLoses` the losing family, and
  `ReconnectCanLoseOutput` a run from a new session.
* The UTF-8 alignment of `readTail` is lost when a rotation has left exactly `tailBytes` bytes, for
  then no trimming happens. `ReadTailIsTextIff` gives the exact condition and
  `TailCanStartInsideACharacter` an instance.
* A full replay followed by the live frames is gap-free exactly if no scheduled flush of the current
  process runs after the replay's input is fixed (`FullReplayAccount`). `RebuildCanLose` and
  `ReplayCanLoseOutput` give losing runs, the latter from a new session with a single client.
* The OSC 7 parser keeps up with the text, chunk by chunk, exactly if no cut falls inside the
  four-character introducer while nothing is pending, and no pending sequence outgrows the partial:
  `SplitsIff` for one cut, `ParserFollowsIff` for any chunks. `SplitIntroducerIsLost` and
  `LongPartialIsLost` show a loss for each condition. For the outcome alone (`ChunkingInvariance`)
  what the last chunk leaves pending may be of any length.
* After a drop nothing is pending, except that a request parked on a handshake that had resolved
  registers after the bulk rejection. `NothingPendsAfterDropIff` gives the exact condition and
  `ParkedRequestCanOutliveTheDrop` a run.
* The agent detector's invariant (one armed timer per session, every active output state watched) is
  kept by every step except some external reports and some reloads, and `StepKeepsInvIff` says exactly
  which. An external report always takes the idle timer away, even when the report is then ignored
  (`ExternalKeepsWatchIff`; `WeakReportUnwatches` is a failing run); reports from hooks and `notify`
  never fail. A reload fails exactly if the saved map names a session twice with states that both come
  back active (`RestoreKeepsIff`; `RepeatedSessionArmsTwice` is a failing run). `RunKeepsInv` asks for
  `Ordinary` events: reports from hooks and `notify`, and saved maps that repeat no session.

## Model

| member | source | states |
|---|---|---|
| PtySessionInvariant.InitialInv | packages/server/src/pty/in-process-host.ts:273-347 | a new session, and one reloaded at any generation with any log an earlier server left, satisfy the session invariant |
| PtySessionInvariant.StepKeepsInv | packages/server/src/pty/in-process-host.ts:552-663 | every step keeps: running ⇔ process ⇔ pid, the process belongs to the current generation, `info.generation` is the current one, a spawning session has no clients, and a running process is paused exactly when its one client is flow-paused |
| PtySessionInvariant.RunKeepsInv | packages/server/src/pty/in-process-host.ts:349-400 | the same over every run, together with the log, ring, warm-terminal, client and numbering invariants |
| PtySessionInvariant.DeltaFrames | packages/server/src/pty/in-process-host.ts:739-748 | the chunks of a delta reply are the current generation's history after the cursor, tagged with that generation |
| PtySessionInvariant.BroadcastNumberedKeeps | packages/server/src/pty/in-process-host.ts:1269-1297 | numbering a batch and handing it to all clients keeps every client's frames an unbroken run that ends with the newest chunk |
| PtySessionEffect.StepEffect | packages/server/src/pty/in-process-host.ts:892-901 | what one step may change: who ends a session, which histories grow and by how much, who can displace a client, and that a client which stays gained exactly the new chunks |
| PtySessionTheorems.ExactReconnect | packages/server/src/pty/in-process-host.ts:739-788 | a chunk client with an honest, retained cursor holds at any later point of any run exactly the numbered history after its cursor: no gap, duplicate or reordering among the numbered chunks, for every interleaving |
| PtySessionReconnect.HistoryFollowsBatches | packages/server/src/pty/in-process-host.ts:1264-1283 | within a generation the numbered history grows by exactly the batches flushed while a chunk client is attached, which are all of them exactly if no scheduled flush of the process ran while none was |
| PtySessionReconnect.ReconnectAccount | packages/server/src/pty/in-process-host.ts:678-805 | from the moment the cursor's chunk was the newest, over any run until the client is back and any run after that, its frames are the batches flushed in between while some chunk client was attached and then all those flushed since it came back; that is everything flushed since the cursor, and completes the log of that moment, exactly if no scheduled flush of the process ran while no chunk client was attached |
| PtySessionReconnect.CompanionHearsAll | packages/server/src/pty/in-process-host.ts:1273-1283 | that condition is met while any other chunk client stays attached |
| PtySessionReconnect.SoleClientLoses | packages/server/src/pty/in-process-host.ts:1273-1283 | whenever a running session has no chunk client, what its process writes next is in no frame of whoever comes back with the newest cursor |
| PtySessionReconnect.ReconnectCanLoseOutput | packages/server/src/pty/scrollback-log.ts:302 | a run from a new session in which its only client sees the first chunk, goes away, and comes back attached with nothing, while the process has written more |
| PtySessionReconnect.StringAttachIsGapFree | packages/server/src/pty/in-process-host.ts:609-655 | the log's tail that a string attach is handed, followed by what the client hears over any run that does not take it off, is the newest part of the log's history, and all of it if the log fitted a tail |
| PtySessionTheorems.AttachmentSurvives | packages/server/src/pty/in-process-host.ts:892-901 | only an untagged or own-token detach, a new attach of the same client or a new generation takes off a client, of either kind |
| PtySessionTheorems.TokenMinted | packages/server/src/pty/in-process-host.ts:189-192 | every attach without a caller's token gets the host's next token, which is used up |
| PtySessionTheorems.StaleTokenNeverDetaches | packages/server/src/pty/in-process-host.ts:892-901 | of two host-minted attaches of a client, of either kind and with any run in between, the second has the greater token, and in any later run detaches with the first token leave it in place |
| PtySessionTheorems.FullReplayThenLive | packages/server/src/pty/in-process-host.ts:750-788 | once the snapshot is taken and the client registered it gets every later chunk exactly once |
| PtySessionTheorems.AwaitedReplayHoldsTheSession | packages/server/src/pty/in-process-host.ts:750-788 | while a replay is awaited the session stays running in its generation with the same client waiting, and its history grows by exactly what flushes number |
| PtySessionReplay.WaitAccount | packages/server/src/pty/headless-terminal-state-cache.ts:79-112 | over any wait the batches flushed are those that joined the replay's input and then those that came too late, and the input has grown by exactly the former |
| PtySessionReplay.NothingMissedIff | packages/server/src/pty/headless-terminal-state-cache.ts:106-112 | no batch comes too late exactly if no step of the run is a scheduled flush of the current process after the input is fixed; the condition looks at the states the run passes through, and the claim counts batches, so an empty one counts |
| PtySessionReplay.LogGrowsByBatches | packages/server/src/pty/in-process-host.ts:1264-1271 | within a generation the log grows by exactly the batches its process has had flushed |
| PtySessionReplay.FullReplayAccount | packages/server/src/pty/in-process-host.ts:750-788 | the log's history ends with what the replay was given, then the batches that came too late, then what the client's frames hold: the batches flushed since its registration; nothing lies in between exactly under that condition |
| PtySessionReplay.RebuildCanLose | packages/server/src/pty/headless-terminal-state-cache.ts:100-112 | whenever a rebuild's first write is in flight, a flush before it is done and another before the snapshot is taken lose the second batch |
| PtySessionReplay.ReplayCanLoseOutput | packages/server/src/pty/in-process-host.ts:750-788 | a run from a new session with one client in which output is neither replayed nor sent |
| PtySessionTheorems.GenerationFence | packages/server/src/pty/in-process-host.ts:1204-1341 | in every reachable state frames carry the current generation and its bytes, chunks numbered under g are batches of spawn g in order, no (generation, seq) pair is issued twice, the generations whose processes produced the log never go back, and input reaching process g was tagged g or untagged |
| PtySessionTheorems.HistoryOnlyGrows | packages/server/src/pty/in-process-host.ts:1071-1083 | a (generation, seq) pair names the same bytes forever |
| PtySessionRequests.EndsExactlyWhen | packages/server/src/pty/in-process-host.ts:1320-1341 | a session is ended exactly by a shutdown or by the exit of the current generation's own process, with their reason; a stale exit never ends a newer generation |
| PtySessionTheorems.NoSilentRespawn | packages/server/src/pty/in-process-host.ts:1053-1066 | an ended session with a custom command, or ended by a server or daemon crash or without a recorded reason, stays ended in its generation with the same spawns over every run without an explicit restart |
| PtySessionTheorems.CrashedSessionStaysEnded | packages/server/src/pty/session-policy.ts:91-103 | in particular a session reloaded without a recorded reason after a crash, by a server or a daemon |
| PtySessionTheorems.AttachResumes | packages/server/src/pty/in-process-host.ts:1053-1102 | a shell or agent session that ended by itself, by a signal or in an orderly shutdown runs in the next generation, in a process of its own, after an attach of either kind |
| PtySessionTheorems.CustomSpawnsOnce | packages/server/src/pty/session-policy.ts:58-70 | a custom command keeps its generation and is spawned at most once per restart |
| PtySessionTheorems.WarmAgreesWithRebuild | packages/server/src/pty/in-process-host.ts:815-890 | a warm terminal has seen a suffix of the session's history, and while the history fits a tail a replay from it and a rebuild from the log give the terminal the same input |
| PtySessionOutput.StringClientsHearTheOutput | packages/server/src/pty/in-process-host.ts:1287-1297 | over every run what a string client has heard is an unbroken run of the batches the current process flushed, up to the newest |
| PtySessionOutput.EverythingPrintedIsFlushed | packages/server/src/pty/in-process-host.ts:1225-1242 | over every run a process's flushed batches, joined, and then its pending text are what they were and then the texts of its output events in order, counted from its spawn if that lies in the run; and whatever is pending has its flush scheduled |
| PtySessionOutput.OutputSchedulesItsFlush | packages/server/src/pty/in-process-host.ts:1225-1242 | output joins the pending text and schedules its flush; a flush takes all of it as one batch and leaves nothing pending or scheduled |
| PtySessionOutput.LiveFramesAreTheOutput | packages/server/src/pty/in-process-host.ts:1229-1297 | a chunk client that stays attached receives, byte for byte and in order, every batch flushed since |
| PtySessionOutput.FramesTellBatches | packages/server/src/pty/in-process-host.ts:1280-1283 | the frames' bytes determine the batches: no two outputs look alike |
| PtySessionOutput.LogIsTheOutput | packages/server/src/pty/in-process-host.ts:1264-1271 | over every run the log's history grows by exactly the batches flushed for the then current generation and the separators of silent resumes, in order, and by nothing a superseded process left behind |
| PtySessionOutput.TagsAreTheWriters | packages/server/src/pty/in-process-host.ts:1259-1271 | over every run the log's tags are the generations that were current at each of its writes, one for each |
| PtySessionOutput.FlushReachesEveryone | packages/server/src/pty/in-process-host.ts:1269-1297 | a flush of the current generation adds one batch to what every attached client has received |
| PtySessionRequests.CurrentInputIsDelivered | packages/server/src/pty/in-process-host.ts:468-502 | input reaches the running process exactly if it is untagged, tagged zero or tagged with the current generation |
| PtySessionRequests.DetachesExactlyWhen | packages/server/src/pty/in-process-host.ts:892-901 | a detach takes off its client exactly if it is untagged or carries the attach's own token, and nobody else |
| PtySessionRequests.PausesExactlyWhen | packages/server/src/pty/in-process-host.ts:552-589 | after a pause or resume the running process is paused exactly when that client is alone and asked for it; without a process or from a client not attached it is not heard |
| PtySessionRequests.StringAttachServesUnlessRefused | packages/server/src/pty/in-process-host.ts:609-626 | refused without effect exactly for an ended session that may not be resumed; otherwise running and attached |
| PtySessionRequests.FullReplayExactlyWhen | packages/server/src/pty/in-process-host.ts:739-760 | a cursor leads to a full replay exactly if the log holds no ring for the session, the ring is of another generation, or part of what the cursor misses was evicted; otherwise the client is attached at once |
| PtySessionRequests.ChunkAttachServes | packages/server/src/pty/in-process-host.ts:678-805 | a chunk attach to a running session waits exactly when it has the binary protocol and its cursor cannot be served, or it has no usable cursor and the log has a tail; otherwise the client is attached at once, unpaused and under the next token, with the history after its cursor or nothing, beside the clients there are |
| PtySessionRequests.ChunkAttachMakesRunning | packages/server/src/pty/in-process-host.ts:683-698 | a session that may not be resumed refuses a chunk attach without effect; any other is made to run first, and the attach is then that of a running session |
| PtySessionRequests.FinishesExactlyWhen | packages/server/src/pty/in-process-host.ts:780-788 | the waiting client is attached when its replay is done and not before, unpaused, under the next token and with no chunks, and the mutex is free again |
| PtySessionRequests.ReplayIsReadFrom | packages/server/src/pty/in-process-host.ts:825-832 | a replay is read from a warm terminal of the asked size as it stands, or else from a new one of that size that is given the log's tail |
| PtySessionRequests.FlushJoinsTheTerminal | packages/server/src/pty/headless-terminal-state-cache.ts:70-77 | a flushed batch joins the cached terminal, which stays cached, and the replay only while its first write is in flight |
| PtySessionRequests.RestartsExactlyWhen | packages/server/src/pty/in-process-host.ts:349-373 | the whole state after a restart; nothing changes unless the session has ended and its mutex is free |
| PtySessionRequests.FirstAttachSpawns | packages/server/src/pty/in-process-host.ts:616-618 | the first attach of a waiting session spawns its process, with its pid, in the same generation |
| PtySessionRequests.SessionsBegin | packages/server/src/pty/in-process-host.ts:273-347 | everything a new session begins with, and a reloaded one |
| PtySessionRequests.ReloadedReason | packages/server/src/pty/in-process-host.ts:1009-1038 | a reloaded session is ended with its recorded reason, or with the one of four that tells writer and manner |
| PtySessionRequests.LogTimerWritesEverything | packages/server/src/pty/scrollback-log.ts:145-176 | after the log's timer or a flush nothing waits in memory, and everything appended has been written |
| PtySessionRequests.StepTouchesOnly | packages/server/src/pty/in-process-host.ts:552-589 | which parts of the session each step may touch; all others stay |
| PtySessionRequests.OtherSpawnsUntouched | packages/server/src/pty/in-process-host.ts:1204-1242 | output and flushes of one process leave every other one's buffer alone |
| InProcessHost.ManagedSession.constructor | packages/server/src/pty/in-process-host.ts:273-347 | the object of a new session is the state `Created` |
| InProcessHost.ManagedSession.Load | packages/server/src/pty/in-process-host.ts:1009-1038 | the object of a persisted session is ended, with its recorded or its fallback end reason |
| InProcessHost.ManagedSession.ShouldPauseOutput | packages/server/src/pty/in-process-host.ts:570-575 | the loop over the clients answers: exactly one client, and it is flow-paused |
| InProcessHost.ManagedSession.ApplyOutputPauseState | packages/server/src/pty/in-process-host.ts:577-589 | the process hears of a change only if there is one, and nothing else changes |
| InProcessHost.ManagedSession.SpawnProcess | packages/server/src/pty/in-process-host.ts:1109-1131 | a fresh per-spawn buffer, an unpaused process of the current generation, state running |
| InProcessHost.ManagedSession.AutoResumeIfSafe | packages/server/src/pty/in-process-host.ts:1053-1102 | separator to log and warm terminal, next generation, fresh ring, no clients, spawn; or nothing at all |
| InProcessHost.ManagedSession.InitClient | packages/server/src/pty/in-process-host.ts:599-663 | the string attach ends in the state of that step; it is refused exactly if the session cannot be made to run, the replay is the log's tail, and the token returned is the attached one |
| InProcessHost.ManagedSession.AttachClient | packages/server/src/pty/in-process-host.ts:678-805 | the chunk attach ends in the state of that step; refusal, replay kind, chunks and reported ring state of the response are those owed, and a client attached at once holds exactly the frames of the response |
| InProcessHost.ReplayNamed | packages/server/src/pty/in-process-host.ts:739-805 | the kind and the chunks that the answer names are the ones given: full exactly if the client waits, delta exactly if there are chunks |
| InProcessHost.ReportedRing | packages/server/src/pty/scrollback-log.ts:254-281 | the ring reported to the client is the current generation's: its newest number and the oldest one retained, or none before anything is numbered |
| InProcessHost.ManagedSession.BeginFullReplay | packages/server/src/pty/in-process-host.ts:815-832 | a warm terminal of the right size is read as it stands, one of the wrong size is dropped, a cold one starts from the tail, the mutex stays held |
| InProcessHost.ManagedSession.UpdateHeadlessState | packages/server/src/pty/headless-terminal-state-cache.ts:70-77 | output joins a cached terminal, and with it a replay whose first write is in flight |
| InProcessHost.ManagedSession.OnFirstWriteDone | packages/server/src/pty/headless-terminal-state-cache.ts:106-112 | the replay's input is fixed |
| InProcessHost.ManagedSession.FinishAttach | packages/server/src/pty/in-process-host.ts:780-788 | the waiting client is registered with a fresh token and no frames, and is handed what the serialized terminal was given |
| InProcessHost.ManagedSession.DetachClient | packages/server/src/pty/in-process-host.ts:892-901 | a token that is not the attached one changes nothing |
| InProcessHost.ManagedSession.SetFlowPaused | packages/server/src/pty/in-process-host.ts:552-568 | pause and resume only with a process and an attached client |
| InProcessHost.ManagedSession.OnData | packages/server/src/pty/in-process-host.ts:1225-1229 | output joins its own spawn's buffer and schedules its flush |
| InProcessHost.ManagedSession.FindChunkClient | packages/server/src/pty/in-process-host.ts:1273-1279 | the scan finds a chunk client exactly if there is one |
| InProcessHost.ManagedSession.OnImmediate | packages/server/src/pty/in-process-host.ts:1229-1297 | a flush empties its own buffer and broadcasts only if its generation is still current |
| InProcessHost.ManagedSession.BroadcastBatch | packages/server/src/pty/in-process-host.ts:1269-1297 | log and warm terminal get the batch, it is numbered only if a chunk client is attached, and every listener gets it |
| InProcessHost.ManagedSession.OnExit | packages/server/src/pty/in-process-host.ts:1320-1341 | a stale exit, or one after the end was recorded, changes nothing |
| InProcessHost.ManagedSession.Restart | packages/server/src/pty/in-process-host.ts:349-373 | refused unless ended; otherwise the next generation waits, without clients, for its process |
| InProcessHost.ManagedSession.ShutDown | packages/server/src/pty/in-process-host.ts:945-968 | a session that has not ended ends with the given reason; one that has keeps its own |
| InProcessHost.ManagedSession.Write | packages/server/src/pty/in-process-host.ts:468-502 | input reaches the process unless it is tagged with another generation |
| ScrollbackSpec.DiskRunRefinesHistory | packages/server/src/pty/scrollback-log.ts:145-176 | over every run of appends, timers and flushes the file is a suffix of what was flushed, long enough for a tail; memory holds bytes exactly while a timer is armed, fewer than the threshold; and the history is everything appended |
| ScrollbackSpec.FlushKeepsHistory | packages/server/src/pty/scrollback-log.ts:332-416 | flushing and rotating never change the history, and a flush that writes leaves at most `maxBytes` |
| ScrollbackSpec.AppendWaitsBelowTheThreshold | packages/server/src/pty/scrollback-log.ts:145-165 | an append waits in memory under an armed timer until 64 KiB would wait, and then all of it is written |
| ScrollbackSpec.FlushWritesTheFile | packages/server/src/pty/scrollback-log.ts:332-416 | the bytes that wait go to the end of the file; a file within the cap keeps everything, one over it exactly its last `tailBytes` bytes |
| ScrollbackSpec.ReadTailIsTailOfHistory | packages/server/src/pty/scrollback-log.ts:188-199 | the tail is the last `tailBytes` bytes of everything ever appended, less at most three leading continuation bytes, and all of a history that fits |
| ScrollbackSpec.ReadTailIsTextIff | packages/server/src/pty/scrollback-log.ts:188-199 | exactly when the tail of a text is a text again |
| ScrollbackSpec.TailCanStartInsideACharacter | packages/server/src/pty/scrollback-log.ts:194 | a rotation to exactly `tailBytes` can leave half a character at the front |
| ScrollbackSpec.RingRunKeepsLongestSuffix | packages/server/src/pty/scrollback-log.ts:212-232 | after any appends in a generation the ring is the longest suffix of them that fits the budget, or the last chunk alone, numbered consecutively up to `nextSeq - 1` |
| ScrollbackSpec.RetainsIsUnique | packages/server/src/pty/scrollback-log.ts:227-230 | that suffix is unique |
| ScrollbackSpec.NewGenerationStartsOver | packages/server/src/pty/scrollback-log.ts:212-222 | the first chunk of a generation starts a ring numbered from zero |
| ScrollbackSpec.ReadSinceWithout | packages/server/src/pty/scrollback-log.ts:294-298 | without a ring a cursor needs a full replay; without a cursor nothing is answered |
| ScrollbackSpec.ReadSinceDecides | packages/server/src/pty/scrollback-log.ts:294-309 | delta exactly when something newer exists and all of it is retained, and then exactly that; full exactly when part was evicted or the generation differs; none exactly when nothing is newer |
| ScrollbackLog.Log.Append | packages/server/src/pty/scrollback-log.ts:145-165 | buffers, flushes at the threshold or arms the timer, for this session only |
| ScrollbackLog.Log.FlushAll | packages/server/src/pty/scrollback-log.ts:171-175 | every session's pending bytes go to its file |
| ScrollbackLog.Log.FlushSession | packages/server/src/pty/scrollback-log.ts:332-361 | the pending bytes go to the end of the file, which is then rotated |
| ScrollbackLog.Log.RotateIfNeeded | packages/server/src/pty/scrollback-log.ts:363-416 | a file over the cap becomes its last `tailBytes` bytes, however short the reads are |
| ScrollbackLog.Log.ReadTail | packages/server/src/pty/scrollback-log.ts:188-199 | flushes first, then returns the specified tail |
| ScrollbackLog.Log.AppendChunk | packages/server/src/pty/scrollback-log.ts:212-232 | numbers the chunk, resets a ring of another generation, evicts by the loop |
| ScrollbackLog.Log.BumpGeneration | packages/server/src/pty/scrollback-log.ts:239-246 | an empty ring of the new generation; the disk is untouched |
| ScrollbackLog.Log.RingState | packages/server/src/pty/scrollback-log.ts:254-281 | newest and oldest number exactly when something is retained |
| ScrollbackLog.Log.ReadSince | packages/server/src/pty/scrollback-log.ts:294-309 | the scan for the cursor computes the specified decision |
| ScrollbackLog.Log.Remove | packages/server/src/pty/scrollback-log.ts:315-326 | nothing of the session is left, nothing of any other is touched |
| SessionPolicy.CursorRoundTrip | packages/server/src/pty/session-policy.ts:154-165 | every cursor survives its wire form, and only decimal numerals parse |
| Utf8.DecodeInvertsEncode | packages/server/src/pty/headless-replay-snapshot.ts:59-68 | bytes of a text read back to that text |
| Utf8.EncodeInjective | packages/server/src/pty/in-process-host.ts:1281 | two texts with the same bytes are the same text |
| Utf8.FormOfChar | packages/server/src/pty/headless-replay-snapshot.ts:59-68 | each character has the length, the leading byte and the continuation bytes of RFC 3629 |
| Utf8.TailCut | packages/server/src/pty/headless-replay-snapshot.ts:59-68 | the cut is the longest well-formed suffix within the budget and loses at most three bytes against it |
| Utf8.Utf8Tail | packages/server/src/pty/in-process-host.ts:67-76 | text to bytes, boundary scan and back give the longest suffix of the text that fits |
| Utf8.DecodeFromBoundary | packages/server/src/pty/scrollback-log.ts:31-35 | the scan drops at most three leading continuation bytes |
| Sgr.CodesSetAttrs | packages/server/src/pty/headless-replay-snapshot.ts:76-106 | the codes of a cell set exactly its bold, italic, underline and both colours, in all four colour modes, from default attributes |
| Sgr.LastColumn | packages/server/src/pty/headless-replay-snapshot.ts:211-226 | the scan from the right stops at the last cell that shows anything |
| Sgr.SerializeLine | packages/server/src/pty/headless-replay-snapshot.ts:211-255 | the loop emits the specified text |
| Sgr.RoundTrip | packages/server/src/pty/headless-replay-snapshot.ts:211-255 | a terminal reading the text from default attributes shows every cell as it looked, the trimmed end being default blanks, and ends in default attributes |
| Sgr.TailSettles | packages/server/src/pty/headless-replay-snapshot.ts:302-311 | whatever tail of a serialized line is read, even one that begins inside a control sequence, the terminal ends between sequences and in default attributes |
| Sgr.LinesCompose | packages/server/src/pty/headless-replay-snapshot.ts:321-323 | lines joined by CRLF show what each shows alone |
| Snapshot.CollectRows | packages/server/src/pty/headless-replay-snapshot.ts:292-321 | the loop takes the last lines that fit whole, then the longest tail of the next one that fits |
| Snapshot.RowsAreConsecutive | packages/server/src/pty/headless-replay-snapshot.ts:292-321 | the rows are consecutive buffer lines ending at `end - 1`, complete except possibly the first, within the budget |
| Snapshot.NoFurtherLineFits | packages/server/src/pty/headless-replay-snapshot.ts:298-316 | one more complete line would have exceeded the budget |
| Snapshot.RestoreNamesTheCursorRow | packages/server/src/pty/headless-replay-snapshot.ts:326-343 | the cursor is restored exactly if its line is shown whole on the screen and the cursor is elsewhere; the row is on the screen and holds the cursor's line |
| Snapshot.TrimEnd | packages/server/src/pty/headless-replay-snapshot.ts:275-290 | all, and only, the blank lines below the cursor are dropped, and only while the buffer fits the screen |
| Snapshot.RestoreCursor | packages/server/src/pty/headless-replay-snapshot.ts:324-348 | the restore sequence is sent exactly if it is needed and still fits |
| Snapshot.SnapshotTerminal | packages/server/src/pty/headless-replay-snapshot.ts:257-357 | prologue, rows, separators and restore together stay within `maxBytes`; the rows are the best ones in the room the prologue leaves; the cursor is restored exactly if its line is shown whole on the screen, it is not where printing left it, and the sequence fits, in column `cursorX + 1` held to the range 1 to `cols` |
| Snapshot.PrologueText | packages/server/src/pty/headless-replay-snapshot.ts:144-181 | the prologue's text for each mouse tracking mode and encoding |
| Snapshot.OneEndColumn | packages/server/src/pty/headless-replay-snapshot.ts:183-196 | printing a line leaves the cursor behind its last character that is not a blank, but not beyond the last column |
| Snapshot.ContentIsAnythingShown | packages/server/src/pty/headless-replay-snapshot.ts:198-209 | a line has content exactly if some cell has a character other than a blank, a style or a colour |
| Snapshot.RowsShowTheirLines | packages/server/src/pty/headless-replay-snapshot.ts:292-323 | replaying the rows, the first one cut or not, shows every complete row's line as it looked, and leaves default attributes |
| Snapshot.SnapshotReadsBack | packages/server/src/pty/headless-replay-snapshot.ts:144-181 | a fresh terminal that reads the whole snapshot enters the mouse modes, shows the lines, moves the cursor to the restored position, and is left in default attributes |
| StateCache.FreshIsFilter | packages/server/src/pty/headless-terminal-state-cache.ts:143-148 | pruning keeps exactly the entries used since the cutoff |
| StateCache.EvictionIsLeastRecentlyUsed | packages/server/src/pty/headless-terminal-state-cache.ts:150-163 | eviction stops at the bound, and what it removes was used no later than anything it keeps |
| StateCache.InsertedSurvives | packages/server/src/pty/headless-terminal-state-cache.ts:124-163 | under a clock that does not go back the entry just inserted is never evicted |
| StateCache.WrittenMembers | packages/server/src/pty/headless-terminal-state-cache.ts:70-77 | exactly which entries a write leaves: the live ones as they were, its own with the output added and stamped as used |
| StateCache.LookedMembers | packages/server/src/pty/headless-terminal-state-cache.ts:79-98 | exactly which entries a snapshot leaves: the live ones as they were, its own stamped as used, or gone if it has another size |
| StateCache.ShownIsTheLiveTerminal | packages/server/src/pty/headless-terminal-state-cache.ts:83-97 | a snapshot answers exactly with the live terminal of its session if that has the size asked for |
| StateCache.RebuiltMembers | packages/server/src/pty/headless-terminal-state-cache.ts:100-163 | a rebuild enters a terminal that has seen exactly the tail, and drops only at the bound and none used later than one it keeps |
| StateCache.HeadlessTerminalStateCache.FindOldest | packages/server/src/pty/headless-terminal-state-cache.ts:152-160 | the scan finds the first of the least recently used |
| StateCache.HeadlessTerminalStateCache.EvictOverflow | packages/server/src/pty/headless-terminal-state-cache.ts:150-163 | the loop evicts as specified |
| StateCache.HeadlessTerminalStateCache.PruneExpired | packages/server/src/pty/headless-terminal-state-cache.ts:143-148 | the loop prunes as specified |
| StateCache.HeadlessTerminalStateCache.Rebuild | packages/server/src/pty/headless-terminal-state-cache.ts:100-141 | a terminal that has seen exactly the tail, at most `maxSessions` of them, and the new one is kept |
| StateCache.HeadlessTerminalStateCache.TakeSnapshot | packages/server/src/pty/headless-terminal-state-cache.ts:79-98 | only a live terminal of the asked size answers; one of another size is dropped |
| StateCache.HeadlessTerminalStateCache.WriteExisting | packages/server/src/pty/headless-terminal-state-cache.ts:70-77 | output is added to a terminal that is already warm and to no other |
| WarmSession.CacheRunKeeps | packages/server/src/pty/headless-terminal-state-cache.ts:70-163 | over every run under a clock that does not go back the keys stay distinct, the bound holds and no entry is from the future |
| WarmSession.StampsAreLatestUses | packages/server/src/pty/headless-terminal-state-cache.ts:70-141 | over every run under such a clock each entry carries the reading of its session's latest write or replay |
| WarmSession.LeastRecentlyUsedGoes | packages/server/src/pty/headless-terminal-state-cache.ts:143-163 | an operation drops a terminal only on disposal, on a size change with nothing to rebuild from, for no use since the cutoff, or at the bound when no remaining session was used earlier; and what has no use since the cutoff goes |
| WarmSession.OwnOperation | packages/server/src/pty/headless-terminal-state-cache.ts:70-112 | an operation of the session's own does what its state machine does, from no terminal exactly if pruning took it |
| WarmRuns.CacheIsExplained | packages/server/src/pty/in-process-host.ts:815-890 | over every joint run of a session, the shared cache and the other sessions the session's terminal is its cache entry, and the session runs as its state machine on its own events with drops in between |
| WarmRuns.ReplayIsTheAnswer | packages/server/src/pty/in-process-host.ts:825-832 | in such a run a full replay starts from what `snapshot` answered, or from the log's tail if it answered nothing |
| WarmSession.CacheRefinesWarm | packages/server/src/pty/headless-terminal-state-cache.ts:70-163 | seen from any session, an operation of its own is its state machine's step, perhaps after its terminal was dropped, and another session's operation leaves or drops its terminal |
| Osc7.SplitsIff | packages/server/src/pty/osc7-parser.ts:22-69 | two texts in sequence contain the payloads and the rest of their concatenation exactly if a sequence is pending at the cut or no introducer is cut |
| Osc7.UncleanLoses | packages/server/src/pty/osc7-parser.ts:29-30 | otherwise a payload is missing or shortened, or the pending sequence is not the text's |
| Osc7.ParserFollowsIff | packages/server/src/pty/osc7-parser.ts:22-69 | chunk by chunk the parser has come across exactly what the text so far contains, exactly if every cut is clean and no pending sequence outgrows the partial |
| Osc7.ChunkingInvariance | packages/server/src/pty/osc7-parser.ts:22-69 | if every cut is clean and no sequence that was pending at an earlier cut outgrew the partial, the final partial and the last announced directory are those of the whole text fed at once |
| Osc7.SplitIntroducerIsLost | packages/server/src/pty/osc7-parser.ts:29-30 | a sequence whose introducer is cut is announced when fed whole and lost when fed in two |
| Osc7.LongPartialIsLost | packages/server/src/pty/osc7-parser.ts:51-61 | a sequence whose partial is dropped for its length although its payload is within the bound is announced when fed whole and lost when fed in two |
| Osc7.RecogniseGrammar | packages/server/src/pty/osc7-parser.ts:29-61 | what is recognised, by the grammar: from the first ESC ] 7 ; to the first BEL or ESC \\ behind it, then the rest; nothing without an introducer; pending without a terminator |
| Osc7.FeedAnnounces | packages/server/src/pty/osc7-parser.ts:51-68 | the result is the last payload of at most 4096 units that the URI parser accepts, and a pending sequence is kept up to that length |
| Osc7.Osc7Parser.ScanPayload | packages/server/src/pty/osc7-parser.ts:35-49 | the inner loop finds the first BEL or ST |
| Osc7.Osc7Parser.Feed | packages/server/src/pty/osc7-parser.ts:22-69 | the loop computes the specified partial and result, and the partial never exceeds 4096 |
| FrameCodec.DecodeInvertsEncode | packages/shared/src/terminal.ts:181-324 | decoding inverts encoding for every uint32 generation, uint64 seq, int32 exit code, in-range dimension and payload |
| FrameCodec.EncodeInvertsDecode | packages/shared/src/terminal.ts:252-324 | every accepted buffer re-encodes to itself, and its fields are in range |
| FrameCodec.WireLayout | packages/shared/src/terminal.ts:130-244 | the prefix byte of each frame kind, its big-endian fields and their places, the payload behind them |
| FrameCodec.AcceptsExactly | packages/shared/src/terminal.ts:252-324 | which prefixes, lengths and dimensions the decoder accepts |
| FrameCodec.EncodeOutputFrame | packages/shared/src/terminal.ts:181-193 | filling the buffer in place yields the frame with both fields reduced to their width |
| FrameCodec.EncodeInputFrame | packages/shared/src/terminal.ts:210-220 | the same for input |
| FrameCodec.EncodeResizeFrame | packages/shared/src/terminal.ts:222-232 | dimensions are reduced to 32 bits; the decoder refuses those out of range |
| FrameCodec.EncodeExitFrame | packages/shared/src/terminal.ts:195-200 | the exit code is reduced to a signed 32-bit word |
| FrameCodec.EncodeBareFrame | packages/shared/src/terminal.ts:234-244 | refresh, flow-pause and flow-resume are single bytes the decoder tells apart |
| SessionMirror.LatchIsMaximum | packages/server/src/pty/session-mirror.ts:32-88 | between removals the latch is the highest generation seen in snapshots and DATA, over every run |
| SessionMirror.StepKnows | packages/server/src/pty/session-mirror.ts:62-120 | what every event leaves known of a session: its newest snapshot or last list entry, marked ended by an exit, gone when removed or missing from a list |
| SessionMirror.StepLatches | packages/server/src/pty/session-mirror.ts:32-88 | what every event does to the latch |
| SessionMirror.SessionMirror.RecordDataGeneration | packages/server/src/pty/session-mirror.ts:45-54 | advances the latch, and calls a chunk stale exactly if it is older than the latch was |
| SessionMirror.SessionMirror.ReplaceAll | packages/server/src/pty/session-mirror.ts:82-88 | the loop replaces the sessions and seeds every generation |
| RemoteHost.RetaggingIsExact | packages/server/src/pty/remote-host.ts:816-824 | the attach wrapper tags every chunk with exactly the generation of its own frame, and a stale chunk reaches neither client nor log |
| RemoteHost.RunKeepsInv | packages/server/src/pty/remote-host.ts:497-578 | over every run each client has received exactly the newest log entries, numbered 0, 1, 2, …, and log generations never go back or pass the latch |
| RemoteHost.LogIsFreshFrames | packages/server/src/pty/remote-host.ts:523-577 | the server-side log is exactly the DATA frames that were no older than everything seen before them |
| RemoteHost.AttachEnters | packages/server/src/pty/remote-host.ts:775-790 | an accepted attach enters its client with its token and nothing received, and touches nobody else |
| RemoteHost.DetachTakesOff | packages/server/src/pty/remote-host.ts:987-996 | a detach takes off exactly its own client, and only untagged or with the attach's own token |
| RemoteHost.AttachmentSurvives | packages/server/src/pty/remote-host.ts:987-996 | over every run only an untagged or own-token detach, a new attach of the client or a disposal takes a client off, and nothing received is taken back |
| RemoteHost.DisposalForgets | packages/server/src/pty/remote-host.ts:681-700 | mirror, latch, clients and log of the session go, those of every other stay |
| RemoteHost.HearsExactly | packages/server/src/pty/remote-host.ts:365-418 | which frames reach the mirror, the clients and the log in which state, and what they do there |
| RemoteHost.ControlHears | packages/server/src/pty/remote-host.ts:365-468 | which frames the handshake and the pending requests hear, and what they do there |
| RemoteHost.RemotePtyHost.FanOut | packages/server/src/pty/remote-host.ts:544-555 | every attached client, and no other, gets the chunk once |
| RemoteHost.RemotePtyHost.ApplyDataFrame | packages/server/src/pty/remote-host.ts:497-578 | latch, fan-out and append as specified |
| RemoteHost.RemotePtyHost.Dispatch | packages/server/src/pty/remote-host.ts:365-418 | which frames are heard in which state, for the handshake and for the mirror |
| RemoteHost.RemotePtyHost.OnNack | packages/server/src/pty/remote-host.ts:435-468 | a reply settles its request; a connection-level refusal drops the connection under the daemon's own code |
| RemoteHost.RemotePtyHost.Request | packages/server/src/pty/remote-host.ts:616-629 | a request goes out only when ready, parks during the handshake and fails after a drop |
| RemoteHost.RemotePtyHost.DetachClient | packages/server/src/pty/remote-host.ts:987-993 | a token that is not the attached one changes nothing |
| RemoteHost.RemotePtyHost.CompleteDispose | packages/server/src/pty/remote-host.ts:681-691 | mirror, latch, clients and log of the session go together |
| RequestCorrelator.RejectAllKeeps | packages/server/src/pty/request-correlator.ts:93-99 | the bulk rejection settles every pending request once and leaves none |
| RequestCorrelator.LateRepliesChangeNothing | packages/server/src/pty/request-correlator.ts:52-91 | a reply or timeout for a request that is not pending changes nothing |
| RequestCorrelator.RequestCorrelator.RejectPending | packages/server/src/pty/request-correlator.ts:93-99 | the loop over the map is that bulk rejection |
| ConnectionLifecycle.ConnectionLifecycle.DropConnection | packages/server/src/pty/connection-lifecycle.ts:120-126 | the first drop rejects a handshake that still waits; later ones do nothing |
| RemoteProtocol.RunKeepsInv | packages/server/src/pty/remote-host.ts:365-468 | over every run each id is pending under its own timer or settled exactly once, nothing is numbered before the handshake, and the states are visited in handshake order |
| RemoteProtocol.ProtocolHolds | packages/server/src/pty/connection-lifecycle.ts:86-126 | the handshake promise is resolved exactly on runs through connecting, snapshot-pending, ready |
| RemoteProtocol.StepSettles | packages/server/src/pty/request-correlator.ts:52-99 | with what each event settles a pending request: acknowledged on the ready connection, refused with the refusal's code, timed out, or dropped with the connection; otherwise it stays pending |
| RemoteProtocol.OutcomesHaveCauses | packages/server/src/pty/request-correlator.ts:52-99 | over every run a request has an outcome exactly if an event of the run settled it so while it was pending |
| RemoteProtocol.AckedIff | packages/server/src/pty/request-correlator.ts:68-75 | over every run a request is acknowledged exactly if its acknowledgement came in while it was pending on the ready connection |
| RemoteProtocol.EndRejectsEverything | packages/server/src/pty/remote-host.ts:435-468 | the end of the connection rejects all that is pending, and the handshake if it still waits, with the refusal's own code if there is one |
| RemoteProtocol.HandshakeSteps | packages/server/src/pty/connection-lifecycle.ts:86-126 | what the hello, its malformed form and the first list do in each state, and that requests wait until then |
| RemoteProtocol.StepSends | packages/server/src/pty/remote-host.ts:616-642 | when a request goes out, under which number, and what a failing write makes of it |
| RemoteProtocol.ParkedCount | packages/server/src/pty/remote-host.ts:616-629 | how many requests wait for the handshake |
| RemoteProtocol.OutcomesAreFinal | packages/server/src/pty/request-correlator.ts:52-99 | a settled request keeps its outcome through every later reply, timeout and drop |
| RemoteProtocol.DroppedIsAbsorbing | packages/server/src/pty/connection-lifecycle.ts:120-126 | a dropped connection stays dropped |
| RemoteProtocol.NothingPendsAfterDropIff | packages/server/src/pty/remote-host.ts:616-642 | requests stay settled after a drop exactly when none was parked on a resolved handshake |
| RemoteProtocol.ParkedRequestCanOutliveTheDrop | packages/server/src/pty/remote-host.ts:623-628 | a run in which one was |
| RemoteProtocol.OwnTimerSettles | packages/server/src/pty/request-correlator.ts:55-59 | whatever is pending is settled at the latest by its own timer |
| PromiseMutex.MutualExclusionInOrder | packages/server/src/lib/promise-mutex.ts:5-25 | at most one unreleased grant, and grants in the order of the requests, over every run |
| PromiseMutex.EveryRequestIsKept | packages/server/src/lib/promise-mutex.ts:5-25 | over every run everyone who asked has been granted the lock or waits, in the order they asked, and at most one more is granted than there were releases |
| PromiseMutex.EveryWaiterIsServed | packages/server/src/lib/promise-mutex.ts:5-25 | in every run, whatever new requests come in between, the k-th waiter is granted by the k-th release |
| PromiseMutex.Mutex.AcquireLock | packages/server/src/lib/promise-mutex.ts:5-16 | granted at once exactly if unlocked, else queued last |
| PromiseMutex.Mutex.ReleaseLock | packages/server/src/lib/promise-mutex.ts:18-25 | the first waiter is granted, or the lock is free |
| ProcessTree.FindDescendantPids | packages/server/src/port-scanner/scanner.ts:85-111 | on every graph, cycles included, the walk ends and returns exactly the nodes at the end of a walk of 1 to `maxDepth` edges |
| ProcessTree.ReachIsWalks | packages/server/src/port-scanner/scanner.ts:85-111 | the set the queue still owes is the set of such walks |
| PanePrune.PruneComposes | packages/server/src/bootstrap/reconcile-state.ts:63-98 | pruning by V and then by W is pruning by V ∩ W, sizes included |
| PanePrune.PruneIsIdempotent | packages/server/src/bootstrap/reconcile-state.ts:63-98 | a second pruning changes nothing |
| PanePrune.PruneKeepsLeaves | packages/server/src/bootstrap/reconcile-state.ts:63-98 | the leaves are the kept leaves in order, every split has at least two children with sizes, and nothing remains exactly when no leaf is kept |
| PanePrune.PruneSplits | packages/server/src/bootstrap/reconcile-state.ts:63-98 | a split keeps its identity, direction and the sizes of the children that survive, in order; with one survivor it gives way to it |
| PanePrune.PruneOrphanPanes | packages/server/src/bootstrap/reconcile-state.ts:63-98 | the recursive code with its accumulating loop computes that pruning |
| AgentDetector.RunKeepsInv | packages/server/src/agent-detector/detector.ts:115-199 | over every run with hook and notify reports at most one idle timer is armed per session, and every state that output left active has one |
| AgentDetector.StepKeepsInvIff | packages/server/src/agent-detector/detector.ts:115-221 | exactly which steps keep that invariant |
| AgentDetector.RestoreKeepsIff | packages/server/src/agent-detector/detector.ts:115-140 | a reload restores it exactly if no session is saved twice with states that both come back active |
| AgentDetector.RepeatedSessionArmsTwice | packages/server/src/agent-detector/detector.ts:122-139 | a saved map that repeats an active session leaves two timers armed for it |
| AgentDetector.WeakReportUnwatches | packages/server/src/agent-detector/detector.ts:218-221 | a report of mere activity after output takes the timer of the active state away and is then ignored |
| AgentDetector.ExternalKeepsWatchIff | packages/server/src/agent-detector/detector.ts:218-221 | exactly which external reports keep active output states watched |
| AgentDetector.FiringLeavesIdle | packages/server/src/agent-detector/detector.ts:283-295 | the timer of an active output state leaves it idle and nothing armed |
| AgentDetector.SourceNeverWeakens | packages/server/src/agent-detector/detector.ts:231-273 | between removals and reloads a session's source priority never decreases |
| AgentDetector.ReportIsStored | packages/server/src/agent-detector/detector.ts:218-273 | a report is stored exactly if no stronger source has spoken, in the order hook, notify, output, activity; the timer goes in any case |
| AgentDetector.OutputIsStored | packages/server/src/agent-detector/detector.ts:142-199 | what output leaves known: the lifecycle matched, or running, watched for the whole timeout; nothing for control-only output; idle when output is not to be observed |
| AgentDetector.RemovalAndFiring | packages/server/src/agent-detector/detector.ts:201-295 | what a removal and a timer leave known |
| AgentDetector.ReloadKnows | packages/server/src/agent-detector/detector.ts:115-140 | a reload knows each saved session as its last entry says, idle if its time is over, else watched for what is left of it |
| AgentDetector.ReloadKnowsNoOther | packages/server/src/agent-detector/detector.ts:115-121 | and no other session |
| AgentDetector.AgentDetector.FeedOutput | packages/server/src/agent-detector/detector.ts:142-199 | clears, observes and re-arms in the branches of the code |
| AgentDetector.AgentDetector.RestoreStates | packages/server/src/agent-detector/detector.ts:115-140 | old timers are cleared, expired output states become idle, live ones are armed again |

## Left out

- A host without a scrollback log (the daemon's own host) and a host with headless replay disabled.
- A PTY spawn that fails: spawning always yields a process.
- The removal of a session's own terminal from the cache when the session is disposed of: a joint run with the cache ends there.
- Dispose racing a queued attach: the session lookup before the mutex and the deletion inside it are not interleaved.
- Bootstrap input, resize, refresh, titles, pins, foreground process and the persisted session records.
- EXIT notifications, listeners that throw and the rollback after a failed initial replay, the global data and input listeners, and the order in which clients are visited.
- Failures of files, sockets, PTY pause and resume: these always succeed, except a write on the daemon socket.
- xterm itself: a terminal is what was written to it; its buffer is an input of the snapshot, and a tail that starts inside a character is compared as bytes, not as the replacement character it is decoded to.
- `stripQueryEscapes`, the agent prompt patterns and `parseFileUri`: the last two are parameters, an empty path counting as none.
- The column of a cursor that is not restored: `lineCursorEndColumn` ignores attributed trailing blanks that are printed.
- The partial first row of a snapshot may start inside an escape sequence; that it leaves no trace in what follows is proved, not what its own glyphs are.
- A wait on which nothing is queued ends without letting a callback in; the model also has the runs in which one gets in.
- A headless snapshot that fails and falls back to the raw tail; only its outcome for an empty log is modelled.
- Lone surrogates: text is a sequence of Unicode scalar values, except in the OSC 7 parser, which works on UTF-16 units.
- `buildProcessTree`, the parsing of `ps` and `lsof`, and the scan loop of the port scanner.
- The parsing of daemon frames and payloads: a frame arrives already split, and only its decodability is an input.
- The replay of an attach to the daemon host and the payload of its attach acknowledgement; `persist`, `shutdownAll` and fire-and-forget frames there.
- Of a session the mirror keeps its identifier, its generation and whether it has ended; its end reason and the other fields pass through unread.
- Two readings of the clock in one step of the agent detector are one reading, and its listeners do not call back into it.
- A mutex holder that releases twice: each grant is released once, as the callers' `finally` blocks do.
- The hexadecimal prefix in the reason for an unknown frame prefix.
