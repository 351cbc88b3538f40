/** The cache seen from one session. Its warm terminal follows the session's own writes and replays;
    whatever else happens in the cache leaves it as it is or drops it. */
module WarmSession {
  import opened Wrappers
  import opened Utf8
  import opened StateCache
  import PtySession

  function Terminal(e: Entry): PtySession.Warm {
    PtySession.Warm(Dims(e.cols, e.rows), e.input)
  }

  /** The session's warm terminal, as its state machine has it. */
  function WarmOf(es: seq<Entry>, id: Id): Option<PtySession.Warm> {
    var i := IndexOf(es, id);
    if i < |es| then Some(Terminal(es[i])) else None
  }

  /** `snapshot(dims) ?? rebuild(tail, dims)`. */
  function Replayed(es: seq<Entry>, id: Id, tail: Bytes, dims: Dims, cutoff: int, now: int, maxSessions: nat): seq<Entry> {
    var looked := Looked(es, id, Some(dims), cutoff, now);
    if Has(looked, id) || tail == [] then looked else Rebuilt(looked, id, tail, dims, now, maxSessions)
  }

  datatype CacheOp =
    | Write(id: Id, data: Bytes, cutoff: int, now: int)
    | Replay(id: Id, tail: Bytes, dims: Dims, cutoff: int, now: int)
    | Forget(id: Id)

  function CacheStep(es: seq<Entry>, op: CacheOp, maxSessions: nat): seq<Entry> {
    match op
    case Write(id, data, cutoff, now) => Written(es, id, data, cutoff, now)
    case Replay(id, tail, dims, cutoff, now) => Replayed(es, id, tail, dims, cutoff, now, maxSessions)
    case Forget(id) => Without(es, id)
  }

  /** What the session's steps make of its warm terminal `w` for an operation of its own. */
  function OwnStep(w: Option<PtySession.Warm>, op: CacheOp): Option<PtySession.Warm> {
    match op
    case Write(_, data, _, _) => PtySession.WriteWarm(w, data)
    case Replay(_, tail, dims, _, _) => PtySession.BuildReplay(w, tail, dims)
    case Forget(_) => None
  }

  /** No entry is from the future. */
  predicate ClockAt(es: seq<Entry>, now: int) {
    forall i :: 0 <= i < |es| ==> es[i].lastUsedAt <= now
  }

  // ---------------------------------------------------------------- finding an entry

  lemma IndexOfMember(es: seq<Entry>, i: nat)
    requires Distinct(es) && i < |es|
    ensures IndexOf(es, es[i].id) == i
  {
    var j := IndexOf(es, es[i].id);
    assert j <= i;
  }

  /** Entries that are a selection of others keep or lose a session's terminal. */
  lemma SelectionKeepsOrDrops(es: seq<Entry>, fs: seq<Entry>, id: Id)
    requires Distinct(es) && Distinct(fs) && forall e :: e in fs ==> e in es
    ensures WarmOf(fs, id) == WarmOf(es, id) || WarmOf(fs, id) == None
  {
    var i := IndexOf(fs, id);
    if i < |fs| {
      assert fs[i] in es;
      var j :| 0 <= j < |es| && es[j] == fs[i];
      IndexOfMember(es, j);
    }
  }

  lemma {:induction false} FreshIsSelection(es: seq<Entry>, cutoff: int)
    requires Distinct(es)
    ensures Distinct(Fresh(es, cutoff)) && forall e :: e in Fresh(es, cutoff) ==> e in es
    ensures |Fresh(es, cutoff)| <= |es|
  {
    if es != [] {
      var n := |es| - 1;
      FreshIsSelection(es[..n], cutoff);
      var fs := Fresh(es[..n], cutoff);
      assert forall e :: e in es[..n] ==> e in es && e.id != es[n].id;
      assert forall i :: 0 <= i < |fs| ==> fs[i] in es[..n];
    }
  }

  lemma WithoutIsSelection(es: seq<Entry>, id: Id)
    requires Distinct(es)
    ensures Distinct(Without(es, id)) && (forall e :: e in Without(es, id) ==> e in es) && WarmOf(Without(es, id), id) == None
    ensures |Without(es, id)| <= |es|
  {
    var i := IndexOf(es, id);
    if i < |es| {
      forall e | e in Without(es, id) ensures e in es {
        RemovalKeepsOthers(es, i, e);
      }
      RemovalKeepsOthers(es, i, es[i]);
      RemovedIsGone(es, i);
    }
  }

  lemma EvictedIsSelection(es: seq<Entry>, maxSessions: nat)
    requires Distinct(es)
    ensures Distinct(Evicted(es, maxSessions)) && forall e :: e in Evicted(es, maxSessions) ==> e in es
    ensures |Evicted(es, maxSessions)| <= maxSessions
  {
    var any := Entry(0, [], 0, 0, 0);
    EvictionIsLeastRecentlyUsed(es, maxSessions, any, any);
    forall e | e in Evicted(es, maxSessions) ensures e in es {
      EvictionIsLeastRecentlyUsed(es, maxSessions, any, e);
    }
  }

  /** Replacing an entry under its own key. */
  lemma UpdateOne(es: seq<Entry>, i: nat, e: Entry, id: Id)
    requires Distinct(es) && i < |es| && e.id == es[i].id
    ensures Distinct(es[i := e])
    ensures WarmOf(es[i := e], id) == if id == e.id then Some(Terminal(e)) else WarmOf(es, id)
  {
    var fs := es[i := e];
    IndexOfMember(es, i);
    assert Distinct(fs);
    IndexOfMember(fs, i);
    var j := IndexOf(es, id);
    if id != e.id {
      if j < |es| {
        IndexOfMember(fs, j);
      }
    }
  }

  lemma PutOne(es: seq<Entry>, e: Entry, id: Id)
    requires Distinct(es)
    ensures Distinct(Put(es, e))
    ensures WarmOf(Put(es, e), id) == if id == e.id then Some(Terminal(e)) else WarmOf(es, id)
  {
    var i := IndexOf(es, e.id);
    if i < |es| {
      UpdateOne(es, i, e, id);
    } else {
      var fs := es + [e];
      assert Distinct(fs);
      IndexOfMember(fs, |es|);
      var j := IndexOf(es, id);
      if id != e.id {
        if j < |es| {
          IndexOfMember(fs, j);
        }
      }
    }
  }

  // ---------------------------------------------------------------- the operations

  predicate Sound(es: seq<Entry>, maxSessions: nat) {
    1 <= maxSessions && Distinct(es) && |es| <= maxSessions
  }

  /** `after` is what an operation of session `own` leaves of session `id`'s terminal. */
  ghost predicate Refines(es: seq<Entry>, fs: seq<Entry>, op: CacheOp, id: Id) {
    exists w :: RefinesFrom(w, es, fs, op, id)
  }

  predicate RefinesFrom(w: Option<PtySession.Warm>, es: seq<Entry>, fs: seq<Entry>, op: CacheOp, id: Id) {
    && (w == WarmOf(es, id) || w == None)
    && WarmOf(fs, id) == if op.id == id then OwnStep(w, op) else w
  }

  /** The terminal that the session's own operation finds: pruning comes first. */
  function Found(es: seq<Entry>, op: CacheOp): Option<PtySession.Warm>
    requires !op.Forget?
  {
    WarmOf(Fresh(es, op.cutoff), op.id)
  }

  lemma WriteRefines(es: seq<Entry>, op: CacheOp, maxSessions: nat, id: Id)
    requires Sound(es, maxSessions) && op.Write?
    ensures Sound(CacheStep(es, op, maxSessions), maxSessions) && Refines(es, CacheStep(es, op, maxSessions), op, id)
  {
    var live := Fresh(es, op.cutoff);
    FreshIsSelection(es, op.cutoff);
    SelectionKeepsOrDrops(es, live, id);
    var i := IndexOf(live, op.id);
    if i < |live| {
      UpdateOne(live, i, live[i].(lastUsedAt := op.now, input := live[i].input + op.data), id);
    }
    var w := WarmOf(live, id);
    assert RefinesFrom(w, es, CacheStep(es, op, maxSessions), op, id);
  }

  /** `snapshot`: a terminal of the asked size stays, one of another size goes. */
  lemma LookRefines(es: seq<Entry>, own: Id, dims: Dims, cutoff: int, now: int, id: Id)
    requires Distinct(es)
    ensures var fs := Looked(es, own, Some(dims), cutoff, now);
            && Distinct(fs) && |fs| <= |es|
            && (ClockAt(es, now) ==> ClockAt(fs, now))
            && (id != own ==> WarmOf(fs, id) == WarmOf(es, id) || WarmOf(fs, id) == None)
            && (id == own ==>
                  (WarmOf(fs, id) == None || (WarmOf(fs, id) == WarmOf(es, id) && WarmOf(fs, id).value.dims == dims)))
  {
    var live := Fresh(es, cutoff);
    FreshIsSelection(es, cutoff);
    assert ClockAt(es, now) ==> ClockAt(live, now) by {
      assert forall i :: 0 <= i < |live| ==> live[i] in es;
    }
    SelectionKeepsOrDrops(es, live, id);
    var i := IndexOf(live, own);
    if i < |live| {
      if Fits(live[i], Some(dims)) {
        UpdateOne(live, i, live[i].(lastUsedAt := now), id);
      } else {
        WithoutIsSelection(live, own);
        var fs := Without(live, own);
        assert ClockAt(live, now) ==> ClockAt(fs, now) by {
          assert forall j :: 0 <= j < |fs| ==> fs[j] in live;
        }
        SelectionKeepsOrDrops(live, fs, id);
      }
    }
  }

  lemma RebuildRefines(es: seq<Entry>, own: Id, raw: Bytes, dims: Dims, now: int, maxSessions: nat, id: Id)
    requires Sound(es, maxSessions) && ClockAt(es, now)
    ensures var fs := Rebuilt(es, own, raw, dims, now, maxSessions);
            && Sound(fs, maxSessions)
            && (id == own ==> WarmOf(fs, id) == Some(PtySession.Warm(dims, raw)))
            && (id != own ==> WarmOf(fs, id) == WarmOf(es, id) || WarmOf(fs, id) == None)
  {
    var e := Entry(own, raw, now, dims.cols, dims.rows);
    var all := Put(es, e);
    PutOne(es, e, id);
    EvictedIsSelection(all, maxSessions);
    SelectionKeepsOrDrops(all, Evicted(all, maxSessions), id);
    InsertedSurvives(es, e, maxSessions);
    InputOfMember(Evicted(all, maxSessions), e);
    hide Evicted, Put;
  }

  lemma ReplayRefines(es: seq<Entry>, op: CacheOp, maxSessions: nat, id: Id)
    requires Sound(es, maxSessions) && op.Replay? && ClockAt(es, op.now)
    ensures Sound(CacheStep(es, op, maxSessions), maxSessions) && Refines(es, CacheStep(es, op, maxSessions), op, id)
  {
    hide Looked, Rebuilt, Distinct;
    var looked := Looked(es, op.id, Some(op.dims), op.cutoff, op.now);
    LookRefines(es, op.id, op.dims, op.cutoff, op.now, id);
    LookRefines(es, op.id, op.dims, op.cutoff, op.now, op.id);
    var fs := CacheStep(es, op, maxSessions);
    if !(Has(looked, op.id) || op.tail == []) {
      RebuildRefines(looked, op.id, op.tail, op.dims, op.now, maxSessions, id);
    }
    var w := if op.id == id then WarmOf(looked, id) else WarmOf(fs, id);
    assert RefinesFrom(w, es, fs, op, id);
  }

  lemma ForgetRefines(es: seq<Entry>, op: CacheOp, maxSessions: nat, id: Id)
    requires Sound(es, maxSessions) && op.Forget?
    ensures Sound(CacheStep(es, op, maxSessions), maxSessions) && Refines(es, CacheStep(es, op, maxSessions), op, id)
  {
    WithoutIsSelection(es, op.id);
    SelectionKeepsOrDrops(es, Without(es, op.id), id);
    var w := if op.id == id then None else WarmOf(Without(es, op.id), id);
    assert RefinesFrom(w, es, CacheStep(es, op, maxSessions), op, id);
  }

  /** Main result: seen from any session, every operation on the cache is that session's own step,
      perhaps after its terminal was dropped, if the operation is its own; and leaves or drops its
      terminal if it is another session's. */
  lemma CacheRefinesWarm(es: seq<Entry>, op: CacheOp, maxSessions: nat, id: Id)
    requires Sound(es, maxSessions) && (op.Replay? ==> ClockAt(es, op.now))
    ensures Sound(CacheStep(es, op, maxSessions), maxSessions)
    ensures Refines(es, CacheStep(es, op, maxSessions), op, id)
  {
    hide Sound, Refines, CacheStep;
    match op
    case Write(_, _, _, _) => WriteRefines(es, op, maxSessions, id);
    case Replay(_, _, _, _, _) => ReplayRefines(es, op, maxSessions, id);
    case Forget(_) => ForgetRefines(es, op, maxSessions, id);
  }

  /** For its own operation it can be told which: the terminal was lost exactly if pruning took it. */
  lemma OwnOperation(es: seq<Entry>, op: CacheOp, maxSessions: nat)
    requires Sound(es, maxSessions) && !op.Forget? && (op.Replay? ==> ClockAt(es, op.now))
    ensures Found(es, op) == WarmOf(es, op.id) || Found(es, op) == None
    ensures WarmOf(CacheStep(es, op, maxSessions), op.id) == OwnStep(Found(es, op), op)
  {
    FreshIsSelection(es, op.cutoff);
    SelectionKeepsOrDrops(es, Fresh(es, op.cutoff), op.id);
    if op.Write? {
      OwnWrite(es, op, maxSessions);
    } else {
      OwnReplay(es, op, maxSessions);
    }
    hide CacheStep, Found;
  }

  lemma OwnWrite(es: seq<Entry>, op: CacheOp, maxSessions: nat)
    requires Sound(es, maxSessions) && op.Write?
    ensures WarmOf(CacheStep(es, op, maxSessions), op.id) == OwnStep(Found(es, op), op)
  {
    var live := Fresh(es, op.cutoff);
    FreshIsSelection(es, op.cutoff);
    var i := IndexOf(live, op.id);
    if i < |live| {
      UpdateOne(live, i, live[i].(lastUsedAt := op.now, input := live[i].input + op.data), op.id);
    }
  }

  lemma OwnLook(es: seq<Entry>, op: CacheOp)
    requires Distinct(es) && op.Replay?
    ensures var fs := Looked(es, op.id, Some(op.dims), op.cutoff, op.now);
            WarmOf(fs, op.id) ==
              if Found(es, op).Some? && Found(es, op).value.dims == op.dims then Found(es, op) else None
  {
    var live := Fresh(es, op.cutoff);
    FreshIsSelection(es, op.cutoff);
    var i := IndexOf(live, op.id);
    if i < |live| {
      UpdateOne(live, i, live[i].(lastUsedAt := op.now), op.id);
      WithoutIsSelection(live, op.id);
    }
  }

  lemma OwnReplay(es: seq<Entry>, op: CacheOp, maxSessions: nat)
    requires Sound(es, maxSessions) && op.Replay? && ClockAt(es, op.now)
    ensures WarmOf(CacheStep(es, op, maxSessions), op.id) == OwnStep(Found(es, op), op)
  {
    hide Looked, Rebuilt, Distinct, Found;
    var looked := Looked(es, op.id, Some(op.dims), op.cutoff, op.now);
    OwnLook(es, op);
    LookRefines(es, op.id, op.dims, op.cutoff, op.now, op.id);
    if !(Has(looked, op.id) || op.tail == []) {
      RebuildRefines(looked, op.id, op.tail, op.dims, op.now, maxSessions, op.id);
    }
  }

  // ---------------------------------------------------------------- runs of the cache

  function CacheRun(es: seq<Entry>, ops: seq<CacheOp>, maxSessions: nat): seq<Entry>
    decreases |ops|
  {
    if ops == [] then es else CacheRun(CacheStep(es, ops[0], maxSessions), ops[1..], maxSessions)
  }

  /** The clock readings of a run do not go back. */
  predicate InOrder(ops: seq<CacheOp>, now: int)
    decreases |ops|
  {
    ops == [] || if ops[0].Forget? then InOrder(ops[1..], now) else now <= ops[0].now && InOrder(ops[1..], ops[0].now)
  }

  function ClockAfter(ops: seq<CacheOp>, now: int): int
    decreases |ops|
  {
    if ops == [] then now else ClockAfter(ops[1..], if ops[0].Forget? then now else ops[0].now)
  }

  lemma SelectionClock(es: seq<Entry>, fs: seq<Entry>, now: int)
    requires ClockAt(es, now) && forall e :: e in fs ==> e in es
    ensures ClockAt(fs, now)
  {
    assert forall i :: 0 <= i < |fs| ==> fs[i] in es;
  }

  /** No entry comes from the future as long as the clock does not go back. */
  lemma StepClock(es: seq<Entry>, op: CacheOp, maxSessions: nat, now: int)
    requires Sound(es, maxSessions) && ClockAt(es, now) && (!op.Forget? ==> now <= op.now)
    ensures ClockAt(CacheStep(es, op, maxSessions), if op.Forget? then now else op.now)
  {
    match op
    case Write(id, data, cutoff, later) =>
      FreshIsSelection(es, cutoff);
      SelectionClock(es, Fresh(es, cutoff), later);
    case Replay(id, tail, dims, cutoff, later) =>
      LookRefines(es, id, dims, cutoff, later, id);
      var looked := Looked(es, id, Some(dims), cutoff, later);
      RebuildClock(looked, Entry(id, tail, later, dims.cols, dims.rows), maxSessions);
      hide Looked;
    case Forget(id) =>
      WithoutIsSelection(es, id);
      SelectionClock(es, Without(es, id), now);
  }

  lemma RebuildClock(es: seq<Entry>, e: Entry, maxSessions: nat)
    requires Distinct(es) && ClockAt(es, e.lastUsedAt)
    ensures ClockAt(Evicted(Put(es, e), maxSessions), e.lastUsedAt)
  {
    PutOne(es, e, e.id);
    EvictedIsSelection(Put(es, e), maxSessions);
    SelectionClock(Put(es, e), Evicted(Put(es, e), maxSessions), e.lastUsedAt);
  }

  /** What the cache keeps over every run under such a clock. */
  lemma {:induction false} CacheRunKeeps(es: seq<Entry>, ops: seq<CacheOp>, maxSessions: nat, now: int)
    requires Sound(es, maxSessions) && ClockAt(es, now) && InOrder(ops, now)
    ensures Sound(CacheRun(es, ops, maxSessions), maxSessions)
    ensures ClockAt(CacheRun(es, ops, maxSessions), ClockAfter(ops, now)) && now <= ClockAfter(ops, now)
    decreases |ops|
  {
    hide Sound, CacheStep, ClockAt, Refines;
    if ops != [] {
      var later := if ops[0].Forget? then now else ops[0].now;
      StepClock(es, ops[0], maxSessions, now);
      LaterClock(es, now, later);
      CacheRefinesWarm(es, ops[0], maxSessions, 0);
      CacheRunKeeps(CacheStep(es, ops[0], maxSessions), ops[1..], maxSessions, later);
    }
  }

  lemma LaterClock(es: seq<Entry>, now: int, later: int)
    requires ClockAt(es, now) && now <= later
    ensures ClockAt(es, later)
  {
  }

  // ---------------------------------------------------------------- least recently used, over runs

  /** When the operations last used session `id`: the reading of its latest write or replay. */
  function LatestUse(ops: seq<CacheOp>, id: Id): Option<int> {
    if ops == [] then None
    else
      var n := |ops| - 1;
      if ops[n].id == id && (ops[n].Write? || ops[n].Replay?) then Some(ops[n].now) else LatestUse(ops[..n], id)
  }

  /** Every entry carries the reading of its session's latest use. */
  ghost predicate UsedInv(es: seq<Entry>, ops: seq<CacheOp>) {
    forall e :: e in es ==> LatestUse(ops, e.id) == Some(e.lastUsedAt)
  }

  lemma LatestUseNext(ops: seq<CacheOp>, op: CacheOp, id: Id)
    ensures LatestUse(ops + [op], id) ==
              if op.id == id && (op.Write? || op.Replay?) then Some(op.now) else LatestUse(ops, id)
  {
    assert (ops + [op])[..|ops + [op]| - 1] == ops;
  }

  /** An operation of a session stamps its own entry and no other. */
  lemma StepStamps(es: seq<Entry>, op: CacheOp, maxSessions: nat, e: Entry)
    requires Sound(es, maxSessions) && (op.Replay? ==> ClockAt(es, op.now)) && e in CacheStep(es, op, maxSessions)
    ensures if e.id == op.id then (op.Write? || op.Replay?) && e.lastUsedAt == op.now else e in es
  {
    match op
    case Write(id, data, cutoff, now) => WrittenMembers(es, id, data, cutoff, now, e);
    case Replay(id, tail, dims, cutoff, now) => ReplayStamps(es, op, maxSessions, e);
    case Forget(id) => ForgetMembers(es, id, e);
    hide CacheStep, Written, Distinct;
  }

  lemma ForgetMembers(es: seq<Entry>, id: Id, e: Entry)
    requires Distinct(es)
    ensures e in Without(es, id) <==> e in es && e.id != id
  {
    var i := IndexOf(es, id);
    if i < |es| {
      RemovalKeepsOthers(es, i, e);
      RemovedIsGone(es, i);
      NotAmong(Without(es, id), id, e);
    } else {
      NotAmong(es, id, e);
    }
  }

  lemma NotAmong(es: seq<Entry>, id: Id, e: Entry)
    requires !Has(es, id)
    ensures e in es ==> e.id != id
  {
  }

  lemma ReplayStamps(es: seq<Entry>, op: CacheOp, maxSessions: nat, e: Entry)
    requires Sound(es, maxSessions) && op.Replay? && ClockAt(es, op.now) && e in CacheStep(es, op, maxSessions)
    ensures if e.id == op.id then e.lastUsedAt == op.now else e in es
  {
    var looked := Looked(es, op.id, Some(op.dims), op.cutoff, op.now);
    LookRefines(es, op.id, op.dims, op.cutoff, op.now, op.id);
    LookedMembers(es, op.id, op.dims, op.cutoff, op.now, e);
    if !(Has(looked, op.id) || op.tail == []) {
      RebuiltMembers(looked, op.id, op.tail, op.dims, op.now, maxSessions, e);
    }
    hide Looked, Rebuilt, WarmOf, Distinct;
  }

  lemma StepKeepsUsed(es: seq<Entry>, ops: seq<CacheOp>, op: CacheOp, maxSessions: nat)
    requires Sound(es, maxSessions) && (op.Replay? ==> ClockAt(es, op.now)) && UsedInv(es, ops)
    ensures UsedInv(CacheStep(es, op, maxSessions), ops + [op])
  {
    hide Sound, ClockAt, CacheStep, LatestUse;
    forall e | e in CacheStep(es, op, maxSessions) ensures LatestUse(ops + [op], e.id) == Some(e.lastUsedAt) {
      StepStamps(es, op, maxSessions, e);
      LatestUseNext(ops, op, e.id);
    }
  }

  lemma {:induction false} CacheRunUsed(es: seq<Entry>, before: seq<CacheOp>, ops: seq<CacheOp>, maxSessions: nat, now: int)
    requires Sound(es, maxSessions) && ClockAt(es, now) && InOrder(ops, now) && UsedInv(es, before)
    ensures UsedInv(CacheRun(es, ops, maxSessions), before + ops)
    decreases |ops|
  {
    hide Sound, CacheStep, ClockAt, Refines, UsedInv;
    if ops == [] {
      assert before + [] == before;
    } else {
      var later := if ops[0].Forget? then now else ops[0].now;
      LaterClock(es, now, later);
      StepClock(es, ops[0], maxSessions, now);
      CacheRefinesWarm(es, ops[0], maxSessions, 0);
      StepKeepsUsed(es, before, ops[0], maxSessions);
      CacheRunUsed(CacheStep(es, ops[0], maxSessions), before + [ops[0]], ops[1..], maxSessions, later);
      assert before + [ops[0]] + ops[1..] == before + ops;
    }
  }

  /** Main result: over every run from an empty cache under a clock that does not go back, the entries
      know when their sessions were last used. */
  lemma StampsAreLatestUses(ops: seq<CacheOp>, maxSessions: nat, now: int, e: Entry)
    requires 1 <= maxSessions && InOrder(ops, now)
    ensures e in CacheRun([], ops, maxSessions) ==> LatestUse(ops, e.id) == Some(e.lastUsedAt)
  {
    CacheRunUsed([], [], ops, maxSessions, now);
    assert [] + ops == ops;
  }

  /** What may take a terminal away. */
  ghost predicate DropsRightly(f: Entry, ops: seq<CacheOp>, op: CacheOp, fs: seq<Entry>, maxSessions: nat) {
    || (op.id == f.id && (op.Forget? || (op.Replay? && op.tail == [] && op.dims != Dims(f.cols, f.rows))))
    || (!op.Forget? && LatestUse(ops, f.id).Some? && LatestUse(ops, f.id).value < op.cutoff)
    || (op.Replay? && op.id != f.id && |fs| == maxSessions && LatestUse(ops, f.id).Some? &&
        forall y :: y in fs ==>
          LatestUse(ops + [op], y.id).Some? && LatestUse(ops, f.id).value <= LatestUse(ops + [op], y.id).value)
  }

  lemma StepDropsRightly(es: seq<Entry>, ops: seq<CacheOp>, op: CacheOp, maxSessions: nat, f: Entry)
    requires Sound(es, maxSessions) && (op.Replay? ==> ClockAt(es, op.now)) && UsedInv(es, ops)
    requires f in es && forall e :: e in CacheStep(es, op, maxSessions) ==> e.id != f.id
    ensures DropsRightly(f, ops, op, CacheStep(es, op, maxSessions), maxSessions)
  {
    StepKeepsUsed(es, ops, op, maxSessions);
    var fs := CacheStep(es, op, maxSessions);
    match op
    case Write(id, data, cutoff, now) =>
      WriteKeepsLive(es, op, maxSessions, f);
      UsedBy(es, ops, f);
      hide CacheStep, LatestUse, Distinct, UsedInv;
    case Replay(id, tail, dims, cutoff, now) =>
      hide Written, LatestUse, UsedInv;
      ReplayDrops(es, op, maxSessions, f);
      UsedBy(es, ops, f);
      forall y | y in fs ensures LatestUse(ops + [op], y.id) == Some(y.lastUsedAt) {
        UsedBy(fs, ops + [op], y);
      }
    case Forget(id) =>
      ForgetMembers(es, id, f);
  }

  lemma WriteKeepsLive(es: seq<Entry>, op: CacheOp, maxSessions: nat, f: Entry)
    requires Distinct(es) && op.Write? && f in es
    ensures f.lastUsedAt >= op.cutoff ==> exists e :: e in CacheStep(es, op, maxSessions) && e.id == f.id
  {
    var g := if f.id == op.id then Entry(op.id, f.input + op.data, op.now, f.cols, f.rows) else f;
    WrittenMembers(es, op.id, op.data, op.cutoff, op.now, g);
    assert f.lastUsedAt >= op.cutoff ==> IsLive(es, f.id, op.cutoff, f);
    hide Written;
  }

  lemma UsedBy(es: seq<Entry>, ops: seq<CacheOp>, e: Entry)
    requires UsedInv(es, ops) && e in es
    ensures LatestUse(ops, e.id) == Some(e.lastUsedAt)
  {
  }

  lemma ReplayDrops(es: seq<Entry>, op: CacheOp, maxSessions: nat, f: Entry)
    requires Sound(es, maxSessions) && op.Replay? && ClockAt(es, op.now)
    requires f in es && forall e :: e in CacheStep(es, op, maxSessions) ==> e.id != f.id
    ensures var fs := CacheStep(es, op, maxSessions);
            || (f.id == op.id && op.tail == [] && op.dims != Dims(f.cols, f.rows)) || f.lastUsedAt < op.cutoff
            || (f.id != op.id && |fs| == maxSessions && forall y :: y in fs ==> f.lastUsedAt <= y.lastUsedAt)
  {
    var looked, fs := Looked(es, op.id, Some(op.dims), op.cutoff, op.now), CacheStep(es, op, maxSessions);
    LookRefines(es, op.id, op.dims, op.cutoff, op.now, op.id);
    LookedMembers(es, op.id, op.dims, op.cutoff, op.now, f);
    var kept := if f.id == op.id then f.(lastUsedAt := op.now) else f;
    LookedMembers(es, op.id, op.dims, op.cutoff, op.now, kept);
    assert f.lastUsedAt >= op.cutoff && (f.id == op.id ==> op.dims == Dims(f.cols, f.rows)) ==> kept in looked by {
      assert f.lastUsedAt >= op.cutoff ==> IsLive(es, f.id, op.cutoff, f);
    }
    hide Looked, WarmOf, Distinct;
    var e := Entry(op.id, op.tail, op.now, op.dims.cols, op.dims.rows);
    if Has(looked, op.id) {
      assert fs == looked && looked[IndexOf(looked, op.id)] in fs;
    } else if op.tail != [] {
      RebuiltMembers(looked, op.id, op.tail, op.dims, op.now, maxSessions, f);
      assert e in fs;
      hide Rebuilt;
    }
  }

  /** Main result: least recently used goes first. Over every run from an empty cache under such a clock,
      one more operation drops a session's terminal only if it disposes of it or replaces it by
      nothing; if the session's latest use is before the cutoff; or if the bound is reached and no
      remaining session was used earlier. And whatever has no use since the cutoff is dropped by
      the next operation of any other session. */
  lemma LeastRecentlyUsedGoes(ops: seq<CacheOp>, op: CacheOp, maxSessions: nat, now: int, f: Entry)
    requires 1 <= maxSessions && InOrder(ops + [op], now) && f in CacheRun([], ops, maxSessions)
    ensures var es := CacheRun([], ops, maxSessions);
            var fs := CacheStep(es, op, maxSessions);
            && LatestUse(ops, f.id).Some?
            && ((forall e :: e in fs ==> e.id != f.id) ==> DropsRightly(f, ops, op, fs, maxSessions))
            && (!op.Forget? && op.id != f.id && LatestUse(ops, f.id).value < op.cutoff ==>
                  forall e :: e in fs ==> e.id != f.id)
  {
    InOrderPrefix(ops, op, now);
    var es := CacheRun([], ops, maxSessions);
    CacheRunKeeps([], ops, maxSessions, now);
    CacheRunUsed([], [], ops, maxSessions, now);
    assert [] + ops == ops;
    UsedBy(es, ops, f);
    hide UsedInv, LatestUse, CacheRun, InOrder;
    if !op.Forget? {
      LaterClock(es, ClockAfter(ops, now), op.now);
    }
    var fs := CacheStep(es, op, maxSessions);
    if forall e :: e in fs ==> e.id != f.id {
      StepDropsRightly(es, ops, op, maxSessions, f);
    }
    if !op.Forget? && op.id != f.id && f.lastUsedAt < op.cutoff {
      forall e | e in fs ensures e.id != f.id {
        ExpiredGoes(es, op, maxSessions, f, e);
      }
    }
  }

  lemma ExpiredGoes(es: seq<Entry>, op: CacheOp, maxSessions: nat, f: Entry, e: Entry)
    requires Sound(es, maxSessions) && !op.Forget? && (op.Replay? ==> ClockAt(es, op.now))
    requires f in es && op.id != f.id && f.lastUsedAt < op.cutoff && e in CacheStep(es, op, maxSessions)
    ensures e.id != f.id
  {
    if op.Write? {
      WrittenMembers(es, op.id, op.data, op.cutoff, op.now, e);
    } else {
      var looked := Looked(es, op.id, Some(op.dims), op.cutoff, op.now);
      LookRefines(es, op.id, op.dims, op.cutoff, op.now, op.id);
      LookedMembers(es, op.id, op.dims, op.cutoff, op.now, e);
      if !(Has(looked, op.id) || op.tail == []) {
        RebuiltMembers(looked, op.id, op.tail, op.dims, op.now, maxSessions, e);
      }
    }
    if e.id == f.id && e in es {
      SameKeySameEntry(es, e, f);
    }
    hide Written, Looked, Rebuilt, WarmOf, Distinct;
  }

  lemma {:induction false} InOrderPrefix(ops: seq<CacheOp>, op: CacheOp, now: int)
    requires InOrder(ops + [op], now)
    ensures InOrder(ops, now) && (!op.Forget? ==> ClockAfter(ops, now) <= op.now)
    decreases |ops|
  {
    var all := ops + [op];
    if ops == [] {
      assert all[0] == op;
    } else {
      assert all[0] == ops[0] && all[1..] == ops[1..] + [op];
      InOrderPrefix(ops[1..], op, if ops[0].Forget? then now else ops[0].now);
    }
  }
}
