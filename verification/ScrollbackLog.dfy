/** The log itself: maps that every method changes in place, a file per session, loops that
    evict chunks, scan for a cursor and copy a tail with short reads. */
module ScrollbackLog {
  import opened Wrappers
  import opened Utf8
  import opened ScrollbackSpec

  type Id = nat

  lemma EmptyDiskInv(l: Limits)
    requires l.Valid()
    ensures DiskInv(Disk([], None, NO_PENDING), l)
  {
    assert Flat([]) == [];
  }

  class Log {
    const limits: Limits
    const inMemoryBudget: nat
    var buffers: map<Id, Pending>
    var rings: map<Id, Ring>
    var files: map<Id, Bytes>
    ghost var flushed: map<Id, Bytes>

    constructor (maxBytes: nat, tailBytes: nat, inMemoryBudget: nat, existing: map<Id, Bytes>)
      ensures Valid() && rings == map[] && this.inMemoryBudget == inMemoryBudget
      ensures limits == Limits(maxBytes, if tailBytes <= maxBytes then tailBytes else maxBytes)
      ensures forall id :: id in existing ==> History(DiskOf(id)) == existing[id]
    {
      limits := Limits(maxBytes, if tailBytes <= maxBytes then tailBytes else maxBytes);
      this.inMemoryBudget := inMemoryBudget;
      buffers, rings := map[], map[];
      files, flushed := existing, existing;
      new;
      forall id | id in existing ensures History(DiskOf(id)) == existing[id] {
        assert Flat([]) == [];
      }
    }

    function PendingOf(id: Id): Pending
      reads this
    {
      if id in buffers then buffers[id] else NO_PENDING
    }

    function FileOf(id: Id): Option<Bytes>
      reads this
    {
      if id in files then Some(files[id]) else None
    }

    function RingOf(id: Id): Option<Ring>
      reads this
    {
      if id in rings then Some(rings[id]) else None
    }

    ghost function DiskOf(id: Id): Disk
      reads this
    {
      Disk(if id in flushed then flushed[id] else [], FileOf(id), PendingOf(id))
    }

    ghost predicate Valid()
      reads this
    {
      limits.Valid() && forall id :: DiskInv(DiskOf(id), limits)
    }

    /** No method touches another session's disk or ring. */
    twostate predicate OthersUnchanged(id: Id)
      reads this
    {
      forall other: Id :: other != id ==> DiskOf(other) == old(DiskOf(other)) && RingOf(other) == old(RingOf(other))
    }

    twostate lemma StillValid(id: Id)
      requires old(Valid()) && OthersUnchanged(id) && DiskInv(DiskOf(id), limits)
      ensures Valid()
    {
      hide DiskInv;
      forall other: Id ensures DiskInv(DiskOf(other), limits) {
        assert other != id ==> DiskOf(other) == old(DiskOf(other));
      }
    }

    method Append(id: Id, data: string)
      requires Valid()
      modifies this
      ensures Valid() && OthersUnchanged(id) && RingOf(id) == old(RingOf(id))
      ensures DiskOf(id) == DiskAppend(old(DiskOf(id)), Encode(data), limits)
    {
      AppendExtendsHistory(DiskOf(id), Encode(data), limits);
      Enqueue(id, Encode(data));
      StillValid(id);
    }

    method Enqueue(id: Id, buf: Bytes)
      requires limits.Valid()
      modifies this
      ensures OthersUnchanged(id) && RingOf(id) == old(RingOf(id))
      ensures DiskOf(id) == DiskAppend(old(DiskOf(id)), buf, limits)
    {
      hide DiskFlush, DiskInv;
      var pending := PendingOf(id);
      pending := Pending(pending.chunks + [buf], pending.size + |buf|, pending.timerArmed);
      buffers := buffers[id := pending];
      if pending.size >= FLUSH_THRESHOLD_BYTES {
        FlushSession(id);
        return;
      }
      if !pending.timerArmed {
        buffers := buffers[id := pending.(timerArmed := true)];
      }
    }

    /** The armed 100 ms timer fires. */
    method TimerFires(id: Id)
      requires Valid() && PendingOf(id).timerArmed
      modifies this
      ensures Valid() && OthersUnchanged(id) && RingOf(id) == old(RingOf(id))
      ensures DiskOf(id) == DiskStep(old(DiskOf(id)), LogOp.TimerFires, limits)
    {
      FlushKeepsHistory(DiskOf(id), limits);
      FlushSession(id);
      StillValid(id);
    }

    method FlushAll()
      requires Valid()
      modifies this
      ensures Valid()
      ensures forall id :: DiskOf(id) == DiskFlush(old(DiskOf(id)), limits) && RingOf(id) == old(RingOf(id))
    {
      hide DiskInv;
      var todo := buffers.Keys;
      while todo != {}
        invariant forall id :: RingOf(id) == old(RingOf(id))
        invariant forall id :: DiskOf(id) == if id in todo then old(DiskOf(id)) else DiskFlush(old(DiskOf(id)), limits)
        decreases |todo|
      {
        var id :| id in todo;
        FlushSession(id);
        todo := todo - {id};
      }
      StillValidFlushed();
    }

    twostate lemma StillValidFlushed()
      requires old(Valid()) && forall id :: DiskOf(id) == DiskFlush(old(DiskOf(id)), limits)
      ensures Valid()
    {
      hide DiskFlush;
      forall id: Id ensures DiskInv(DiskOf(id), limits) {
        assert DiskInv(old(DiskOf(id)), limits);
        FlushKeepsHistory(old(DiskOf(id)), limits);
        assert DiskOf(id) == DiskFlush(old(DiskOf(id)), limits);
      }
    }

    method ReadTail(id: Id) returns (r: Bytes)
      requires Valid()
      modifies this
      ensures Valid() && OthersUnchanged(id) && RingOf(id) == old(RingOf(id))
      ensures DiskOf(id) == DiskFlush(old(DiskOf(id)), limits)
      ensures r == ScrollbackSpec.ReadTail(old(DiskOf(id)), limits)
    {
      FlushKeepsHistory(DiskOf(id), limits);
      FlushSession(id);
      StillValid(id);
      r := ReadFile(id);
    }

    method ReadFile(id: Id) returns (r: Bytes)
      ensures r == TailOfFile(FileOf(id), limits)
    {
      if id !in files {
        return [];
      }
      var buf := files[id];
      if |buf| <= limits.tailBytes {
        return buf;
      }
      r := DecodeFromBoundary(buf[|buf| - limits.tailBytes..]);
    }

    method FlushSession(id: Id)
      requires limits.Valid()
      modifies this
      ensures OthersUnchanged(id) && RingOf(id) == old(RingOf(id))
      ensures DiskOf(id) == DiskFlush(old(DiskOf(id)), limits)
    {
      if id !in buffers || buffers[id].chunks == [] {
        return;
      }
      var merged := Flat(buffers[id].chunks);
      buffers := buffers[id := NO_PENDING];
      flushed := flushed[id := DiskOf(id).flushed + merged];
      files := files[id := FileBytes(FileOf(id)) + merged];
      RotateIfNeeded(id);
    }

    method RotateIfNeeded(id: Id)
      requires id in files && limits.Valid()
      modifies this`files
      ensures files == old(files)[id := Rotated(old(files)[id], limits)]
    {
      var file := files[id];
      var size := |file|;
      if size <= limits.maxBytes {
        assert files == old(files)[id := file];
        return;
      }
      var tail: Bytes := [];
      while |tail| < limits.tailBytes
        invariant |tail| <= limits.tailBytes && files == old(files)
        invariant tail == file[size - limits.tailBytes..size - limits.tailBytes + |tail|]
        decreases limits.tailBytes - |tail|
      {
        var n := ReadSync(limits.tailBytes - |tail|);
        tail := tail + file[size - limits.tailBytes + |tail|..size - limits.tailBytes + |tail| + n];
      }
      assert tail == Rotated(file, limits);
      files := files[id := tail];
    }

    method AppendChunk(id: Id, generation: nat, data: Bytes) returns (seqNo: nat)
      modifies this`rings
      ensures old(Valid()) ==> Valid()
      ensures OthersUnchanged(id) && DiskOf(id) == old(DiskOf(id))
      ensures RingOf(id) == Some(RingAppend(old(RingOf(id)), generation, data, inMemoryBudget))
      ensures seqNo == (if old(RingOf(id)).Some? && old(RingOf(id)).value.generation == generation
                        then old(RingOf(id)).value.nextSeq else 0)
    {
      hide DiskInv;
      if id !in rings || rings[id].generation != generation {
        rings := rings[id := EmptyRing(generation)];
      }
      var ring := rings[id];
      seqNo := ring.nextSeq;
      ring := ring.(nextSeq := seqNo + 1);
      ring := ring.(chunks := ring.chunks + [Chunk(seqNo, data)]);
      ring := ring.(totalBytes := ring.totalBytes + |data|);
      ghost var pushed, others := ring, rings;
      while ring.totalBytes > inMemoryBudget && |ring.chunks| > 1
        invariant rings == others && Evict(ring, inMemoryBudget) == Evict(pushed, inMemoryBudget)
        decreases |ring.chunks|
      {
        var evicted := ring.chunks[0];
        ring := ring.(chunks := ring.chunks[1..], totalBytes := ring.totalBytes - |evicted.data|);
      }
      rings := rings[id := ring];
      if old(Valid()) {
        assert DiskInv(old(DiskOf(id)), limits) && DiskOf(id) == old(DiskOf(id));
        StillValid(id);
      }
    }

    method BumpGeneration(id: Id, newGeneration: nat)
      modifies this`rings
      ensures old(Valid()) ==> Valid()
      ensures OthersUnchanged(id) && DiskOf(id) == old(DiskOf(id)) && RingOf(id) == Some(EmptyRing(newGeneration))
    {
      hide DiskInv;
      rings := rings[id := Ring(newGeneration, 0, [], 0)];
      if old(Valid()) {
        StillValid(id);
      }
    }

    /** `(generation, lastDeliveredSeq, oldestSeq)` for the init-ack. */
    method RingState(id: Id, fallbackGeneration: nat)
      returns (generation: nat, lastDelivered: Option<int>, oldest: Option<nat>)
      ensures generation == if RingOf(id).Some? then RingOf(id).value.generation else fallbackGeneration
      ensures lastDelivered.Some? <==> oldest.Some?
      ensures oldest.Some? <==> RingOf(id).Some? && RingOf(id).value.chunks != []
      ensures oldest.Some? ==>
                oldest.value == RingOf(id).value.chunks[0].seqNo && lastDelivered.value == RingOf(id).value.nextSeq - 1
    {
      if id !in rings {
        return fallbackGeneration, None, None;
      }
      var ring := rings[id];
      if ring.chunks == [] {
        return ring.generation, None, None;
      }
      return ring.generation, Some(ring.nextSeq - 1), Some(ring.chunks[0].seqNo);
    }

    method ReadSince(id: Id, lastSeen: Option<LastSeen>) returns (r: ReadSinceResult)
      ensures r == ScrollbackSpec.ReadSince(RingOf(id), lastSeen)
    {
      if id !in rings {
        return if lastSeen.Some? then Full else NoReplay;
      }
      var ring := rings[id];
      if lastSeen.None? {
        return NoReplay;
      }
      var c := lastSeen.value;
      if c.generation != ring.generation {
        return Full;
      }
      if c.seqNo >= ring.nextSeq - 1 || ring.chunks == [] {
        return NoReplay;
      }
      if c.seqNo < ring.chunks[0].seqNo - 1 {
        return Full;
      }
      var start := 0;
      while start < |ring.chunks| && ring.chunks[start].seqNo <= c.seqNo
        invariant 0 <= start <= |ring.chunks|
        invariant FirstAfter(ring.chunks, c.seqNo) == start + FirstAfter(ring.chunks[start..], c.seqNo)
      {
        assert ring.chunks[start..][1..] == ring.chunks[start + 1..];
        start := start + 1;
      }
      r := if start >= |ring.chunks| then NoReplay else Delta(ring.chunks[start..]);
    }

    method Remove(id: Id)
      requires Valid()
      modifies this
      ensures Valid() && OthersUnchanged(id)
      ensures DiskOf(id) == Disk([], None, NO_PENDING) && RingOf(id) == None
    {
      hide DiskInv, OthersUnchanged;
      Forget(id);
      EmptyDiskInv(limits);
      StillValid(id);
    }

    method Forget(id: Id)
      modifies this
      ensures OthersUnchanged(id)
      ensures DiskOf(id) == Disk([], None, NO_PENDING) && RingOf(id) == None
    {
      buffers := buffers - {id};
      rings := rings - {id};
      files := files - {id};
      flushed := flushed - {id};
    }
  }

  /** A read may return fewer bytes than asked for, but not none before the end of the file. */
  method ReadSync(wanted: nat) returns (n: nat)
    requires wanted > 0
    ensures 1 <= n <= wanted
  {
    n :| 1 <= n <= wanted;
  }
}
