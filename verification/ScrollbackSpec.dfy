/** What one session's scrollback means: an unbounded history, the file and pending buffer that
    represent it on disk, and the in-memory ring of numbered chunks that serves reconnects. */
module ScrollbackSpec {
  import opened Wrappers
  import opened Utf8

  type Bytes = seq<byte>

  const FLUSH_THRESHOLD_BYTES: nat := 65536

  function Flat(parts: seq<Bytes>): Bytes {
    if parts == [] then [] else Flat(parts[..|parts| - 1]) + parts[|parts| - 1]
  }

  lemma {:induction false} FlatConcat(a: seq<Bytes>, b: seq<Bytes>)
    ensures Flat(a + b) == Flat(a) + Flat(b)
  {
    if b == [] {
      assert a + b == a;
    } else {
      var n := |b| - 1;
      FlatConcat(a, b[..n]);
      assert (a + b)[..|a + b| - 1] == a + b[..n];
    }
  }

  lemma FlatOne(x: Bytes)
    ensures Flat([x]) == x
  {
    var one: seq<Bytes> := [x];
    assert one[..0] == [];
  }

  predicate IsSuffix(a: Bytes, b: Bytes) {
    |a| <= |b| && a == b[|b| - |a|..]
  }

  /** The last `n` bytes, or everything when there is less. */
  function Last(b: Bytes, n: nat): (r: Bytes)
    ensures IsSuffix(r, b)
  {
    if |b| <= n then b else b[|b| - n..]
  }

  // ---------------------------------------------------------------- disk

  datatype Limits = Limits(maxBytes: nat, tailBytes: nat) {
    predicate Valid() { tailBytes <= maxBytes }
  }

  datatype Pending = Pending(chunks: seq<Bytes>, size: nat, timerArmed: bool)

  const NO_PENDING := Pending([], 0, false)

  /** `flushed` is everything ever written to the file; rotation never shortens it. */
  datatype Disk = Disk(flushed: Bytes, file: Option<Bytes>, pending: Pending)

  function History(d: Disk): Bytes {
    d.flushed + Flat(d.pending.chunks)
  }

  function FileBytes(file: Option<Bytes>): Bytes {
    if file.Some? then file.value else []
  }

  function Rotated(file: Bytes, l: Limits): Bytes {
    if |file| <= l.maxBytes then file else Last(file, l.tailBytes)
  }

  function DiskFlush(d: Disk, l: Limits): Disk {
    if d.pending.chunks == [] then d
    else
      var merged := Flat(d.pending.chunks);
      Disk(d.flushed + merged, Some(Rotated(FileBytes(d.file) + merged, l)), NO_PENDING)
  }

  function DiskAppend(d: Disk, data: Bytes, l: Limits): Disk {
    var p := Pending(d.pending.chunks + [data], d.pending.size + |data|, d.pending.timerArmed);
    if p.size >= FLUSH_THRESHOLD_BYTES then DiskFlush(d.(pending := p), l)
    else d.(pending := p.(timerArmed := true))
  }

  /** What `readTail` hands back once the pending bytes are on disk. */
  function TailOfFile(file: Option<Bytes>, l: Limits): Bytes {
    TailBytes(FileBytes(file), l.tailBytes)
  }

  function ReadTail(d: Disk, l: Limits): Bytes {
    TailOfFile(DiskFlush(d, l).file, l)
  }

  /** The file is a suffix of what was flushed and always long enough for a tail read. */
  predicate FileInv(flushed: Bytes, file: Option<Bytes>, l: Limits) {
    && (file.None? ==> |flushed| == 0)
    && IsSuffix(FileBytes(file), flushed)
    && (|FileBytes(file)| >= l.tailBytes || |flushed| <= |FileBytes(file)|)
  }

  /** Bytes wait in memory exactly while a flush timer is armed, and never as much as the threshold. */
  predicate PendingInv(p: Pending) {
    && p.size == |Flat(p.chunks)| < FLUSH_THRESHOLD_BYTES
    && (p.timerArmed <==> p.chunks != [])
  }

  predicate DiskInv(d: Disk, l: Limits) {
    l.Valid() && FileInv(d.flushed, d.file, l) && PendingInv(d.pending)
  }

  datatype LogOp = Append(data: Bytes) | TimerFires | FlushNow

  function DiskStep(d: Disk, op: LogOp, l: Limits): Disk {
    match op
    case Append(data) => DiskAppend(d, data, l)
    case TimerFires => if d.pending.timerArmed then DiskFlush(d, l) else d
    case FlushNow => DiskFlush(d, l)
  }

  function DiskRun(d: Disk, ops: seq<LogOp>, l: Limits): Disk
    decreases |ops|
  {
    if ops == [] then d else DiskRun(DiskStep(d, ops[0], l), ops[1..], l)
  }

  function Contribution(op: LogOp): Bytes {
    if op.Append? then op.data else []
  }

  function Appended(ops: seq<LogOp>): Bytes {
    if ops == [] then [] else Contribution(ops[0]) + Appended(ops[1..])
  }

  lemma SuffixExtends(a: Bytes, b: Bytes, data: Bytes)
    requires IsSuffix(a, b)
    ensures IsSuffix(a + data, b + data)
  {
    assert a + data == (b + data)[|b + data| - |a + data|..];
  }

  lemma SuffixOfSuffix(a: Bytes, b: Bytes, c: Bytes)
    requires IsSuffix(a, b) && IsSuffix(b, c)
    ensures IsSuffix(a, c)
  {
    assert a == c[|c| - |a|..];
  }

  lemma WriteKeepsFileInv(flushed: Bytes, file: Option<Bytes>, merged: Bytes, l: Limits)
    requires l.Valid() && FileInv(flushed, file, l)
    ensures FileInv(flushed + merged, Some(Rotated(FileBytes(file) + merged, l)), l)
    ensures |Rotated(FileBytes(file) + merged, l)| <= l.maxBytes
  {
    var f, all := FileBytes(file) + merged, flushed + merged;
    SuffixExtends(FileBytes(file), flushed, merged);
    SuffixOfSuffix(Last(f, l.tailBytes), f, all);
    hide IsSuffix;
  }

  /** Flushing moves bytes, it never changes the history; afterwards the file obeys the cap. */
  lemma FlushKeepsHistory(d: Disk, l: Limits)
    requires l.Valid() && FileInv(d.flushed, d.file, l)
    requires d.pending.chunks == [] ==> PendingInv(d.pending)
    ensures DiskInv(DiskFlush(d, l), l)
    ensures History(DiskFlush(d, l)) == History(d)
    ensures DiskFlush(d, l).pending.chunks == []
    ensures d.pending.chunks != [] ==> |FileBytes(DiskFlush(d, l).file)| <= l.maxBytes
  {
    WriteKeepsFileInv(d.flushed, d.file, Flat(d.pending.chunks), l);
    hide FileInv, Rotated;
  }

  lemma AppendExtendsHistory(d: Disk, data: Bytes, l: Limits)
    requires DiskInv(d, l)
    ensures DiskInv(DiskAppend(d, data, l), l)
    ensures History(DiskAppend(d, data, l)) == History(d) + data
  {
    var chunks := d.pending.chunks + [data];
    assert chunks[..|chunks| - 1] == d.pending.chunks;
    var p := Pending(chunks, d.pending.size + |data|, d.pending.timerArmed);
    ConcatAssociates(d.flushed, Flat(d.pending.chunks), data);
    hide FileInv, DiskFlush;
    if p.size >= FLUSH_THRESHOLD_BYTES {
      FlushKeepsHistory(d.(pending := p), l);
    }
  }

  lemma DiskStepRefinesHistory(d: Disk, op: LogOp, l: Limits)
    requires DiskInv(d, l)
    ensures DiskInv(DiskStep(d, op, l), l)
    ensures History(DiskStep(d, op, l)) == History(d) + Contribution(op)
  {
    if op.Append? {
      AppendExtendsHistory(d, op.data, l);
    } else {
      FlushKeepsHistory(d, l);
    }
  }

  /** Main result for the disk log: over every run of appends, timers and flushes the
      representation invariant holds and nothing but the appended bytes joined the history. */
  lemma {:induction false} DiskRunRefinesHistory(d: Disk, ops: seq<LogOp>, l: Limits)
    requires DiskInv(d, l)
    ensures DiskInv(DiskRun(d, ops, l), l)
    ensures History(DiskRun(d, ops, l)) == History(d) + Appended(ops)
    decreases |ops|
  {
    if ops != [] {
      var e := DiskStep(d, ops[0], l);
      DiskStepRefinesHistory(d, ops[0], l);
      DiskRunRefinesHistory(e, ops[1..], l);
      ConcatAssociates(History(d), Contribution(ops[0]), Appended(ops[1..]));
    }
  }

  lemma LastOfSuffix(a: Bytes, b: Bytes, n: nat)
    requires IsSuffix(a, b) && (|a| >= n || a == b)
    ensures Last(a, n) == Last(b, n)
  {
  }

  lemma DropKeepsSuffix(last: Bytes, h: Bytes, limit: nat)
    requires IsSuffix(last, h)
    ensures IsSuffix(DropContinuation(last, limit), h)
    ensures |DropContinuation(last, limit)| >= |last| - limit
  {
    var k := DropContinuationShape(last, limit);
    assert last[k..] == h[|h| - (|last| - k)..];
  }

  /** `readTail` returns the last `tailBytes` bytes of everything ever appended; when the file is
      longer than that, up to three leading continuation bytes of them are dropped. */
  lemma ReadTailIsTailOfHistory(d: Disk, l: Limits)
    requires DiskInv(d, l)
    ensures ReadTail(d, l) == if |FileBytes(DiskFlush(d, l).file)| <= l.tailBytes then Last(History(d), l.tailBytes)
                              else DropContinuation(Last(History(d), l.tailBytes), 3)
    ensures |History(d)| <= l.tailBytes ==> ReadTail(d, l) == History(d)
    ensures |ReadTail(d, l)| >= |Last(History(d), l.tailBytes)| - 3
    ensures IsSuffix(ReadTail(d, l), History(d))
  {
    var f, h := FileBytes(DiskFlush(d, l).file), History(d);
    FlushedFileEndsHistory(d, l);
    DropKeepsSuffix(Last(h, l.tailBytes), h, 3);
    hide DiskFlush, History, IsSuffix, FileBytes, DropContinuation, DiskInv;
  }

  lemma FlushedFileEndsHistory(d: Disk, l: Limits)
    requires DiskInv(d, l)
    ensures Last(FileBytes(DiskFlush(d, l).file), l.tailBytes) == Last(History(d), l.tailBytes)
    ensures |FileBytes(DiskFlush(d, l).file)| <= |History(d)|
  {
    FlushKeepsHistory(d, l);
    var e := DiskFlush(d, l);
    assert e.flushed == History(e) by {
      assert Flat([]) == [];
    }
    LastOfSuffix(FileBytes(e.file), e.flushed, l.tailBytes);
    hide DiskFlush, Last, Flat;
  }

  /** When the history is text, the tail is text again exactly when the trimming branch ran or
      the cut happened to fall on a character boundary. */
  lemma ReadTailIsTextIff(d: Disk, l: Limits, s: string)
    requires DiskInv(d, l) && History(d) == Encode(s)
    ensures var h := History(d);
            WellFormed(ReadTail(d, l)) <==>
              || |FileBytes(DiskFlush(d, l).file)| > l.tailBytes
              || |h| <= l.tailBytes || l.tailBytes == 0
              || !IsContinuation(h[|h| - l.tailBytes])
  {
    ReadTailIsTailOfHistory(d, l);
    var h, n := History(d), l.tailBytes;
    var r := ReadTail(d, l);
    if |h| <= n {
      assert Encode(s) == r;
    } else {
      TailCut(s, n);
      var last := Last(h, n);
      if |FileBytes(DiskFlush(d, l).file)| > n || n == 0 || !IsContinuation(h[|h| - n]) {
        assert r == DropContinuation(last, 3) == Encode(TailText(s, n));
      } else if WellFormed(r) {
        assert IsContinuation(r[0]);
        var t: string :| Encode(t) == r;
        FirstByteIsNotContinuation(t);
        assert false;
      }
    }
  }

  /** The family that the boundary scan misses is not empty: a rotation that leaves exactly
      `tailBytes` bytes can leave half a character at the front. */
  lemma TailCanStartInsideACharacter() returns (d: Disk, l: Limits)
    ensures DiskInv(d, l) && WellFormed(History(d)) && !WellFormed(ReadTail(d, l))
  {
    l := Limits(1, 1);
    var d0 := Disk([], None, NO_PENDING);
    var data: Bytes := [0xC3, 0xA9];
    d := DiskAppend(d0, data, l);
    AppendExtendsHistory(d0, data, l);
    var s := [0xE9 as char];
    assert Encode(s[1..]) == [];
    assert Encode(s) == EncodeChar(s[0]) == data;
    assert History(d) == data;
    var e := DiskFlush(d, l);
    assert d.pending.chunks == [data];
    FlatOne(data);
    assert FileBytes(e.file) == Last(data, 1) == [0xA9];
    ReadTailIsTextIff(d, l, s);
  }

  /** An append waits in memory, under an armed timer, unless what waits would reach 64 KiB; then all of it
      is written. */
  lemma AppendWaitsBelowTheThreshold(d: Disk, data: Bytes, l: Limits)
    requires DiskInv(d, l)
    ensures var e, waiting := DiskAppend(d, data, l), |Flat(d.pending.chunks)| + |data|;
            && (waiting < 65536 ==>
                  e == d.(pending := Pending(d.pending.chunks + [data], waiting, true)))
            && (waiting >= 65536 ==>
                  && e.pending == Pending([], 0, false)
                  && e.flushed == d.flushed + (Flat(d.pending.chunks) + data))
  {
    var chunks := d.pending.chunks + [data];
    assert chunks[..|chunks| - 1] == d.pending.chunks;
    hide FileInv, Rotated;
  }

  /** A flush of waiting bytes puts them at the end of the file; a file within the cap keeps everything, and
      one over it keeps exactly its last `tailBytes` bytes. */
  lemma FlushWritesTheFile(d: Disk, l: Limits)
    requires l.Valid()
    ensures d.pending.chunks == [] ==> DiskFlush(d, l) == d
    ensures d.pending.chunks != [] ==>
              var all, e := (if d.file.Some? then d.file.value else []) + Flat(d.pending.chunks), DiskFlush(d, l);
              && e.file.Some? && e.pending == Pending([], 0, false)
              && (|all| <= l.maxBytes ==> e.file.value == all)
              && (|all| > l.maxBytes ==> |e.file.value| == l.tailBytes && e.file.value == all[|all| - l.tailBytes..])
  {
    hide Flat;
  }

  // ---------------------------------------------------------------- ring

  datatype Chunk = Chunk(seqNo: nat, data: Bytes)

  datatype Ring = Ring(generation: nat, nextSeq: nat, chunks: seq<Chunk>, totalBytes: int)

  datatype LastSeen = LastSeen(generation: nat, seqNo: nat)

  datatype ReadSinceResult = Delta(chunks: seq<Chunk>) | Full | NoReplay

  function EmptyRing(generation: nat): Ring {
    Ring(generation, 0, [], 0)
  }

  function Evict(r: Ring, budget: nat): Ring
    decreases |r.chunks|
  {
    if r.totalBytes > budget && |r.chunks| > 1
    then Evict(r.(chunks := r.chunks[1..], totalBytes := r.totalBytes - |r.chunks[0].data|), budget)
    else r
  }

  function Push(r: Ring, data: Bytes): Ring {
    Ring(r.generation, r.nextSeq + 1, r.chunks + [Chunk(r.nextSeq, data)], r.totalBytes + |data|)
  }

  function RingAppend(ring: Option<Ring>, generation: nat, data: Bytes, budget: nat): Ring {
    var r := if ring.None? || ring.value.generation != generation then EmptyRing(generation) else ring.value;
    Evict(Push(r, data), budget)
  }

  function FirstAfter(chunks: seq<Chunk>, seqNo: nat): nat {
    if chunks == [] || chunks[0].seqNo > seqNo then 0 else 1 + FirstAfter(chunks[1..], seqNo)
  }

  function ReadSince(ring: Option<Ring>, lastSeen: Option<LastSeen>): ReadSinceResult {
    if ring.None? then (if lastSeen.Some? then Full else NoReplay)
    else if lastSeen.None? then NoReplay
    else
      var r, s := ring.value, lastSeen.value.seqNo;
      if lastSeen.value.generation != r.generation then Full
      else if s >= r.nextSeq - 1 then NoReplay
      else if r.chunks == [] then NoReplay
      else if s < r.chunks[0].seqNo - 1 then Full
      else
        var start := FirstAfter(r.chunks, s);
        if start >= |r.chunks| then NoReplay else Delta(r.chunks[start..])
  }

  /** Chunks `k`, `k + 1`, … of a history, under their sequence numbers. */
  function Numbered(h: seq<Bytes>, k: nat): seq<Chunk>
    requires k <= |h|
  {
    seq(|h| - k, i requires 0 <= i < |h| - k => Chunk(k + i, h[k + i]))
  }

  /** `h[k..]` is the longest suffix of the history that fits the budget, except that the newest
      chunk is kept even when it alone exceeds it. */
  ghost predicate Retains(h: seq<Bytes>, k: nat, budget: nat) {
    && k < |h|
    && (k == |h| - 1 || |Flat(h[k..])| <= budget)
    && forall j :: 0 <= j < k ==> |Flat(h[j..])| > budget
  }

  /** The ring holds exactly the retained suffix of its generation's history. */
  ghost predicate RingMatches(r: Ring, h: seq<Bytes>, budget: nat) {
    && r.nextSeq == |h| && |r.chunks| <= |h|
    && r.chunks == Numbered(h, |h| - |r.chunks|)
    && r.totalBytes == |Flat(h[|h| - |r.chunks|..])|
    && (h != [] ==> Retains(h, |h| - |r.chunks|, budget))
  }

  lemma FlatTail(h: seq<Bytes>, k: nat)
    requires k < |h|
    ensures |Flat(h[k..])| == |h[k]| + |Flat(h[k + 1..])|
  {
    assert h[k..] == [h[k]] + h[k + 1..];
    FlatConcat([h[k]], h[k + 1..]);
    FlatOne(h[k]);
  }

  lemma {:induction false} EvictKeepsLongest(r: Ring, h: seq<Bytes>, budget: nat)
    requires 0 < |r.chunks| <= |h| && r.nextSeq == |h|
    requires var k := |h| - |r.chunks|;
             r.chunks == Numbered(h, k) && r.totalBytes == |Flat(h[k..])| &&
             forall j :: 0 <= j < k ==> |Flat(h[j..])| > budget
    ensures RingMatches(Evict(r, budget), h, budget) && Evict(r, budget).generation == r.generation
    decreases |r.chunks|
  {
    if r.totalBytes > budget && |r.chunks| > 1 {
      var k := |h| - |r.chunks|;
      FlatTail(h, k);
      assert r.chunks[1..] == Numbered(h, k + 1);
      EvictKeepsLongest(r.(chunks := r.chunks[1..], totalBytes := r.totalBytes - |r.chunks[0].data|), h, budget);
    }
  }

  /** One `appendChunk` in the ring's own generation. */
  lemma AppendKeepsRing(r: Ring, h: seq<Bytes>, data: Bytes, budget: nat)
    requires RingMatches(r, h, budget)
    ensures RingMatches(RingAppend(Some(r), r.generation, data, budget), h + [data], budget)
    ensures RingAppend(Some(r), r.generation, data, budget).generation == r.generation
  {
    var h', k := h + [data], |h| - |r.chunks|;
    forall j | 0 <= j <= |h| ensures |Flat(h'[j..])| == |Flat(h[j..])| + |data| {
      assert h'[j..] == h[j..] + [data];
      assert h'[j..][..|h'[j..]| - 1] == h[j..];
    }
    EvictKeepsLongest(Push(r, data), h', budget);
  }

  function RingRun(generation: nat, datas: seq<Bytes>, budget: nat): Ring {
    if datas == [] then EmptyRing(generation)
    else RingAppend(Some(RingRun(generation, datas[..|datas| - 1], budget)), generation, datas[|datas| - 1], budget)
  }

  /** Main result for the ring: after any sequence of `appendChunk` calls in one generation. */
  lemma {:induction false} RingRunKeepsLongestSuffix(generation: nat, datas: seq<Bytes>, budget: nat)
    ensures RingMatches(RingRun(generation, datas, budget), datas, budget)
    ensures RingRun(generation, datas, budget).generation == generation
  {
    if datas != [] {
      var n := |datas| - 1;
      RingRunKeepsLongestSuffix(generation, datas[..n], budget);
      AppendKeepsRing(RingRun(generation, datas[..n], budget), datas[..n], datas[n], budget);
      assert datas[..n] + [datas[n]] == datas;
    }
  }

  /** The retained suffix is unique, so `RingMatches` leaves the ring no choice. */
  lemma RetainsIsUnique(h: seq<Bytes>, j: nat, k: nat, budget: nat)
    requires Retains(h, j, budget) && Retains(h, k, budget)
    ensures j == k
  {
  }

  lemma {:induction false} FirstAfterNumbered(h: seq<Bytes>, k: nat, s: nat)
    requires k <= |h| && k <= s + 1 <= |h|
    ensures FirstAfter(Numbered(h, k), s) == s + 1 - k
    decreases s + 1 - k
  {
    if k < s + 1 {
      assert Numbered(h, k)[1..] == Numbered(h, k + 1);
      FirstAfterNumbered(h, k + 1, s);
    }
  }

  /** The whole decision: a cursor from another generation needs a full replay; one that has seen
      everything needs nothing; one older than the retained suffix needs a full replay; and any
      other is served exactly the chunks after it. */
  lemma ReadSinceDecides(r: Ring, h: seq<Bytes>, budget: nat, c: LastSeen)
    requires RingMatches(r, h, budget)
    ensures ReadSince(Some(r), Some(c)) ==
            if c.generation != r.generation then Full
            else if c.seqNo + 1 >= |h| then NoReplay
            else if c.seqNo + 1 < |h| - |r.chunks| then Full
            else Delta(Numbered(h, c.seqNo + 1))
  {
    if c.generation == r.generation && c.seqNo + 1 < |h| && c.seqNo + 1 >= |h| - |r.chunks| {
      var k := |h| - |r.chunks|;
      FirstAfterNumbered(h, k, c.seqNo);
      assert r.chunks[c.seqNo + 1 - k..] == Numbered(h, c.seqNo + 1);
    }
  }

  /** A chunk of another generation, or the first one, starts a ring of its own. */
  lemma NewGenerationStartsOver(ring: Option<Ring>, generation: nat, data: Bytes, budget: nat)
    requires ring.Some? ==> ring.value.generation != generation
    ensures RingAppend(ring, generation, data, budget) == Ring(generation, 1, [Chunk(0, data)], |data|)
  {
    assert [] + [Chunk(0, data)] == [Chunk(0, data)];
  }

  /** Without a ring a cursor needs a full replay; without a cursor nothing is answered. */
  lemma ReadSinceWithout(ring: Option<Ring>, c: LastSeen)
    ensures ReadSince(None, Some(c)) == Full && ReadSince(ring, None) == NoReplay
  {
  }
}
