/** The cache of warm headless terminals: bounded by count (least recently used out first) and by
    age. A terminal is represented by everything written to it; the entries keep the insertion
    order of a JavaScript `Map`, which decides ties. */
module StateCache {
  import opened Wrappers
  import opened Utf8

  type Id = nat
  type Bytes = seq<byte>

  datatype Entry = Entry(id: Id, input: Bytes, lastUsedAt: int, cols: nat, rows: nat)

  datatype Source = HeadlessState | HeadlessRebuild

  datatype Snapshot = Snapshot(source: Source, input: Bytes)

  // ---------------------------------------------------------------- ordered maps

  function IndexOf(es: seq<Entry>, id: Id): (i: nat)
    ensures i <= |es|
    ensures i < |es| ==> es[i].id == id
    ensures forall j :: 0 <= j < i ==> es[j].id != id
  {
    if es == [] || es[0].id == id then 0 else 1 + IndexOf(es[1..], id)
  }

  predicate Has(es: seq<Entry>, id: Id) {
    IndexOf(es, id) < |es|
  }

  /** `Map.set`: an existing key keeps its place. */
  function Put(es: seq<Entry>, e: Entry): seq<Entry> {
    var i := IndexOf(es, e.id);
    if i < |es| then es[i := e] else es + [e]
  }

  /** `Map.delete`. */
  function Without(es: seq<Entry>, id: Id): seq<Entry> {
    var i := IndexOf(es, id);
    if i < |es| then es[..i] + es[i + 1..] else es
  }

  predicate Distinct(es: seq<Entry>) {
    forall i, j :: 0 <= i < j < |es| ==> es[i].id != es[j].id
  }

  /** Entries last used before the cutoff are gone. */
  function Fresh(es: seq<Entry>, cutoff: int): seq<Entry> {
    if es == [] then []
    else Fresh(es[..|es| - 1], cutoff) + if es[|es| - 1].lastUsedAt < cutoff then [] else [es[|es| - 1]]
  }

  /** Pruning keeps exactly the entries used since the cutoff. */
  lemma {:induction false} FreshIsFilter(es: seq<Entry>, cutoff: int, e: Entry)
    ensures e in Fresh(es, cutoff) <==> e in es && e.lastUsedAt >= cutoff
  {
    if es != [] {
      var n := |es| - 1;
      FreshIsFilter(es[..n], cutoff, e);
      assert es == es[..n] + [es[n]];
    }
  }

  // ---------------------------------------------------------------- eviction

  /** The entry that `evictOverflow` picks: the first of the least recently used. */
  ghost predicate IsOldest(es: seq<Entry>, k: nat) {
    && k < |es|
    && (forall i :: 0 <= i < |es| ==> es[k].lastUsedAt <= es[i].lastUsedAt)
    && (forall i :: 0 <= i < k ==> es[k].lastUsedAt < es[i].lastUsedAt)
  }

  function OldestIndex(es: seq<Entry>): (k: nat)
    requires es != []
    ensures IsOldest(es, k)
  {
    if |es| == 1 then 0
    else
      var n := |es| - 1;
      var k := OldestIndex(es[..n]);
      if es[n].lastUsedAt < es[k].lastUsedAt then n else k
  }

  function Evicted(es: seq<Entry>, maxSessions: nat): seq<Entry> {
    if |es| <= maxSessions then es
    else
      var k := OldestIndex(es);
      Evicted(es[..k] + es[k + 1..], maxSessions)
  }

  /** Whatever eviction removes was used no later than anything it keeps, and it stops at the bound. */
  lemma {:induction false} EvictionIsLeastRecentlyUsed(es: seq<Entry>, maxSessions: nat, gone: Entry, kept: Entry)
    requires Distinct(es)
    ensures |Evicted(es, maxSessions)| == if |es| <= maxSessions then |es| else maxSessions
    ensures Distinct(Evicted(es, maxSessions))
    ensures kept in Evicted(es, maxSessions) ==> kept in es
    ensures gone in es && gone !in Evicted(es, maxSessions) && kept in Evicted(es, maxSessions)
            ==> gone.lastUsedAt <= kept.lastUsedAt
    decreases |es|
  {
    if |es| > maxSessions {
      var k := OldestIndex(es);
      var rest := es[..k] + es[k + 1..];
      RemovalKeepsOthers(es, k, gone);
      RemovalKeepsOthers(es, k, kept);
      EvictionIsLeastRecentlyUsed(rest, maxSessions, gone, kept);
    }
  }

  lemma RemovalKeepsOthers(es: seq<Entry>, k: nat, e: Entry)
    requires Distinct(es) && k < |es|
    ensures var rest := es[..k] + es[k + 1..];
            && Distinct(rest)
            && (e in rest ==> e in es)
            && (e in es ==> e in rest || e == es[k])
  {
    var rest := es[..k] + es[k + 1..];
    assert forall i :: 0 <= i < |rest| ==> rest[i] == if i < k then es[i] else es[i + 1];
    if e in es {
      var i :| 0 <= i < |es| && es[i] == e;
      if i < k {
        assert rest[i] == e;
      } else if i > k {
        assert rest[i - 1] == e;
      }
    }
  }

  lemma RemovedIsGone(es: seq<Entry>, k: nat)
    requires Distinct(es) && k < |es|
    ensures !Has(es[..k] + es[k + 1..], es[k].id)
  {
    var rest := es[..k] + es[k + 1..];
    assert forall i :: 0 <= i < |rest| ==> rest[i].id != es[k].id;
  }

  /** Main result: under a clock that does not go back, the entry just inserted is never the one
      that is evicted; ties are broken towards the older insertion. */
  lemma InsertedSurvives(es: seq<Entry>, e: Entry, maxSessions: nat)
    requires Distinct(es) && |es| <= maxSessions && 1 <= maxSessions
    requires forall i :: 0 <= i < |es| ==> es[i].lastUsedAt <= e.lastUsedAt
    ensures e in Evicted(Put(es, e), maxSessions)
    ensures |Evicted(Put(es, e), maxSessions)| <= maxSessions
  {
    var all := Put(es, e);
    var i := IndexOf(es, e.id);
    if i < |es| {
      assert all[i] == e;
    } else {
      assert all[|es|] == e;
      if |all| > maxSessions {
        var k := OldestIndex(all);
        assert k != |es| by {
          assert all[0] == es[0];
        }
        var rest := all[..k] + all[k + 1..];
        assert rest[|es| - 1] == e;
        assert Evicted(all, maxSessions) == Evicted(rest, maxSessions) == rest;
      }
    }
  }

  // ---------------------------------------------------------------- the three operations

  /** `writeExisting`. */
  function Written(es: seq<Entry>, id: Id, data: Bytes, cutoff: int, now: int): seq<Entry> {
    var live := Fresh(es, cutoff);
    var i := IndexOf(live, id);
    if i < |live| then live[i := live[i].(lastUsedAt := now, input := live[i].input + data)] else live
  }

  predicate Fits(e: Entry, dims: Option<Dims>) {
    dims.Some? ==> e.cols == dims.value.cols && e.rows == dims.value.rows
  }

  /** `snapshot`. */
  function Looked(es: seq<Entry>, id: Id, dims: Option<Dims>, cutoff: int, now: int): seq<Entry> {
    var live := Fresh(es, cutoff);
    var i := IndexOf(live, id);
    if i == |live| then live
    else if !Fits(live[i], dims) then Without(live, id)
    else live[i := live[i].(lastUsedAt := now)]
  }

  /** What `snapshot` answers. */
  function Shown(es: seq<Entry>, id: Id, dims: Option<Dims>, cutoff: int): Option<Snapshot> {
    var live := Fresh(es, cutoff);
    var i := IndexOf(live, id);
    if i < |live| && Fits(live[i], dims) then Some(Snapshot(HeadlessState, live[i].input)) else None
  }

  /** `rebuild`, for a tail that is not empty. */
  function Rebuilt(es: seq<Entry>, id: Id, raw: Bytes, dims: Dims, now: int, maxSessions: nat): seq<Entry> {
    Evicted(Put(es, Entry(id, raw, now, dims.cols, dims.rows)), maxSessions)
  }

  /** A live terminal of session `id`. */
  predicate IsLive(es: seq<Entry>, id: Id, cutoff: int, f: Entry) {
    f in es && f.id == id && f.lastUsedAt >= cutoff
  }

  lemma {:induction false} FreshStaysDistinct(es: seq<Entry>, cutoff: int)
    requires Distinct(es)
    ensures Distinct(Fresh(es, cutoff))
    ensures forall e :: e in Fresh(es, cutoff) ==> e in es
  {
    if es != [] {
      var n := |es| - 1;
      FreshStaysDistinct(es[..n], cutoff);
      var fs := Fresh(es[..n], cutoff);
      forall i | 0 <= i < |fs| ensures fs[i].id != es[n].id {
        assert fs[i] in es[..n];
      }
    }
  }

  lemma SameKeySameEntry(es: seq<Entry>, e: Entry, f: Entry)
    requires Distinct(es) && e in es && f in es && e.id == f.id
    ensures e == f
  {
    var i :| 0 <= i < |es| && es[i] == e;
    var j :| 0 <= j < |es| && es[j] == f;
    assert i == j;
  }

  /** Replacing the entry of a key replaces nothing else. */
  lemma ReplacedMembers(es: seq<Entry>, i: nat, e: Entry, x: Entry)
    requires Distinct(es) && i < |es| && e.id == es[i].id
    ensures x in es[i := e] <==> x == e || (x in es && x.id != e.id)
  {
    if x in es && x.id != e.id {
      var j :| 0 <= j < |es| && es[j] == x;
      assert es[i := e][j] == x;
    }
    assert es[i := e][i] == e;
  }

  /** Output joins the live terminal of its session, which counts as used; every other live terminal stays
      as it is, and what is not live is gone. */
  lemma WrittenMembers(es: seq<Entry>, id: Id, data: Bytes, cutoff: int, now: int, x: Entry)
    requires Distinct(es)
    ensures x in Written(es, id, data, cutoff, now) <==>
              || (x.id != id && IsLive(es, x.id, cutoff, x))
              || exists f :: IsLive(es, id, cutoff, f) && x == Entry(id, f.input + data, now, f.cols, f.rows)
  {
    var live := Fresh(es, cutoff);
    FreshStaysDistinct(es, cutoff);
    FreshIsFilter(es, cutoff, x);
    var i := IndexOf(live, id);
    if i < |live| {
      var f := live[i];
      FreshIsFilter(es, cutoff, f);
      ReplacedMembers(live, i, f.(lastUsedAt := now, input := f.input + data), x);
      forall g | IsLive(es, id, cutoff, g) ensures g == f {
        SameKeySameEntry(es, g, f);
      }
      assert IsLive(es, id, cutoff, f);
    } else {
      NotFound(es, id, cutoff);
    }
  }

  lemma NotFound(es: seq<Entry>, id: Id, cutoff: int)
    requires IndexOf(Fresh(es, cutoff), id) == |Fresh(es, cutoff)|
    ensures forall f :: !IsLive(es, id, cutoff, f)
  {
    forall f ensures !IsLive(es, id, cutoff, f) {
      FreshIsFilter(es, cutoff, f);
    }
  }

  /** A snapshot keeps the live terminal of its session if it has the size asked for, and then it counts
      as used; one of another size goes. */
  lemma LookedMembers(es: seq<Entry>, id: Id, dims: Dims, cutoff: int, now: int, x: Entry)
    requires Distinct(es)
    ensures x in Looked(es, id, Some(dims), cutoff, now) <==>
              || (x.id != id && IsLive(es, x.id, cutoff, x))
              || exists f :: IsLive(es, id, cutoff, f) && f.cols == dims.cols && f.rows == dims.rows &&
                             x == Entry(id, f.input, now, f.cols, f.rows)
  {
    var live := Fresh(es, cutoff);
    FreshStaysDistinct(es, cutoff);
    FreshIsFilter(es, cutoff, x);
    var i := IndexOf(live, id);
    if i < |live| {
      var f := live[i];
      FreshIsFilter(es, cutoff, f);
      forall g | IsLive(es, id, cutoff, g) ensures g == f {
        SameKeySameEntry(es, g, f);
      }
      assert IsLive(es, id, cutoff, f);
      if Fits(f, Some(dims)) {
        ReplacedMembers(live, i, f.(lastUsedAt := now), x);
      } else {
        RemovalKeepsOthers(live, i, x);
        RemovedIsGone(live, i);
      }
    } else {
      NotFound(es, id, cutoff);
    }
  }

  /** A snapshot answers exactly with the live terminal of its session, if that has the size asked for. */
  lemma ShownIsTheLiveTerminal(es: seq<Entry>, id: Id, dims: Option<Dims>, cutoff: int, f: Entry)
    requires Distinct(es)
    ensures IsLive(es, id, cutoff, f) ==>
              Shown(es, id, dims, cutoff) ==
                if dims.None? || dims.value == Dims(f.cols, f.rows) then Some(Snapshot(HeadlessState, f.input)) else None
    ensures Shown(es, id, dims, cutoff).Some? ==> exists g :: IsLive(es, id, cutoff, g)
  {
    var live := Fresh(es, cutoff);
    FreshStaysDistinct(es, cutoff);
    FreshIsFilter(es, cutoff, f);
    var i := IndexOf(live, id);
    if i < |live| {
      FreshIsFilter(es, cutoff, live[i]);
      assert IsLive(es, id, cutoff, live[i]);
      if IsLive(es, id, cutoff, f) {
        SameKeySameEntry(es, live[i], f);
      }
    }
  }

  /** A rebuild enters a terminal that has seen exactly the tail; it drops none but the least recently
      used, and only as many as the bound asks for. */
  lemma RebuiltMembers(es: seq<Entry>, id: Id, raw: Bytes, dims: Dims, now: int, maxSessions: nat, x: Entry)
    requires Distinct(es) && |es| <= maxSessions && 1 <= maxSessions
    requires forall i :: 0 <= i < |es| ==> es[i].lastUsedAt <= now
    ensures var fs := Rebuilt(es, id, raw, dims, now, maxSessions);
            && Entry(id, raw, now, dims.cols, dims.rows) in fs
            && (x in fs ==> x == Entry(id, raw, now, dims.cols, dims.rows) || (x in es && x.id != id))
            && (x in es && x.id != id && x !in fs ==>
                  |fs| == maxSessions && forall y :: y in fs ==> x.lastUsedAt <= y.lastUsedAt)
  {
    var e := Entry(id, raw, now, dims.cols, dims.rows);
    var fs := Rebuilt(es, id, raw, dims, now, maxSessions);
    InsertedSurvives(es, e, maxSessions);
    PutMembers(es, e, x);
    PutKeepsDistinct(es, e);
    hide Put, Distinct;
    EvictionIsLeastRecentlyUsed(Put(es, e), maxSessions, x, x);
    if x in es && x.id != id && x !in fs {
      forall y | y in fs ensures x.lastUsedAt <= y.lastUsedAt {
        EvictionIsLeastRecentlyUsed(Put(es, e), maxSessions, x, y);
      }
    }
  }

  lemma PutMembers(es: seq<Entry>, e: Entry, x: Entry)
    requires Distinct(es)
    ensures x in Put(es, e) <==> x == e || (x in es && x.id != e.id)
  {
    var i := IndexOf(es, e.id);
    if i < |es| {
      ReplacedMembers(es, i, e, x);
    }
  }

  // ---------------------------------------------------------------- the cache

  class HeadlessTerminalStateCache {
    const maxSessions: nat
    const ttlMs: nat
    const cols: nat
    const rows: nat
    var entries: seq<Entry>

    /** Distinct keys, never more than the bound. */
    predicate Valid()
      reads this
    {
      1 <= maxSessions && Distinct(entries) && |entries| <= maxSessions
    }

    /** Non-positive options fall back to 8 sessions and ten minutes. */
    constructor (maxSessions: int, ttlMs: int, cols: nat, rows: nat)
      ensures Valid() && entries == []
      ensures this.maxSessions == (if maxSessions > 0 then maxSessions else 8)
      ensures this.ttlMs == (if ttlMs > 0 then ttlMs else 600000)
    {
      this.maxSessions := if maxSessions > 0 then maxSessions else 8;
      this.ttlMs := if ttlMs > 0 then ttlMs else 600000;
      this.cols, this.rows := cols, rows;
      entries := [];
    }

    function InputOf(id: Id): Option<Bytes>
      reads this
    {
      if Has(entries, id) then Some(entries[IndexOf(entries, id)].input) else None
    }

    method Delete(id: Id)
      requires Valid()
      modifies this
      ensures Valid() && entries == Without(old(entries), id) && !Has(entries, id)
    {
      var i := IndexOf(entries, id);
      if i < |entries| {
        RemovalKeepsOthers(entries, i, entries[i]);
        RemovedIsGone(entries, i);
        entries := entries[..i] + entries[i + 1..];
      }
    }

    method PruneExpired(now: int)
      requires Valid()
      modifies this
      ensures Valid() && entries == Fresh(old(entries), now - ttlMs)
    {
      var cutoff := now - ttlMs;
      var kept: seq<Entry> := [];
      assert entries[..0] == [];
      for i := 0 to |entries|
        invariant entries == old(entries) && kept == Fresh(entries[..i], cutoff) && |kept| <= i
        invariant Distinct(kept) && forall j :: 0 <= j < |kept| ==> kept[j] in entries[..i]
      {
        assert entries[..i + 1][..i] == entries[..i];
        if entries[i].lastUsedAt >= cutoff {
          kept := kept + [entries[i]];
        }
      }
      assert entries[..|entries|] == entries;
      entries := kept;
    }

    method FindOldest() returns (k: nat)
      requires entries != []
      ensures k == OldestIndex(entries)
    {
      k := 0;
      for i := 1 to |entries|
        invariant k < i && k == OldestIndex(entries[..i])
      {
        assert entries[..i + 1][..i] == entries[..i];
        if entries[i].lastUsedAt < entries[k].lastUsedAt {
          k := i;
        }
      }
      assert entries[..|entries|] == entries;
    }

    method EvictOverflow()
      requires Distinct(entries) && 1 <= maxSessions
      modifies this
      ensures Valid() && entries == Evicted(old(entries), maxSessions)
    {
      ghost var was := entries;
      while |entries| > maxSessions
        invariant Distinct(entries)
        invariant Evicted(entries, maxSessions) == Evicted(was, maxSessions)
        decreases |entries|
      {
        var k := FindOldest();
        RemovalKeepsOthers(entries, k, entries[k]);
        entries := entries[..k] + entries[k + 1..];
      }
    }

    /** `replace` and the first write: a fresh terminal that has seen only the log's tail. */
    method Rebuild(id: Id, raw: Bytes, dims: Option<Dims>, now: int) returns (r: Option<Snapshot>)
      requires Valid()
      modifies this
      ensures Valid()
      ensures raw == [] ==> r == None && entries == old(entries)
      ensures raw != [] ==> r == Some(Snapshot(HeadlessRebuild, raw))
      ensures raw != [] ==>
                var d := if dims.Some? then dims.value else Dims(cols, rows);
                entries == Rebuilt(old(entries), id, raw, d, now, maxSessions)
      ensures raw != [] && (forall i :: 0 <= i < |old(entries)| ==> old(entries)[i].lastUsedAt <= now) ==>
                InputOf(id) == Some(raw)
    {
      if raw == [] {
        return None;
      }
      var d := if dims.Some? then dims.value else Dims(cols, rows);
      var entry := Entry(id, raw, now, d.cols, d.rows);
      ghost var was := entries;
      PutKeepsDistinct(entries, entry);
      entries := Put(entries, entry);
      EvictOverflow();
      if forall i :: 0 <= i < |was| ==> was[i].lastUsedAt <= now {
        InsertedSurvives(was, entry, maxSessions);
        InputOfMember(entries, entry);
      }
      return Some(Snapshot(HeadlessRebuild, raw));
    }

    /** A warm terminal of the right size, if there is one that is not too old. */
    method TakeSnapshot(id: Id, dims: Option<Dims>, pruneNow: int, useNow: int) returns (r: Option<Snapshot>)
      requires Valid()
      modifies this
      ensures Valid()
      ensures entries == Looked(old(entries), id, dims, pruneNow - ttlMs, useNow)
      ensures r == Shown(old(entries), id, dims, pruneNow - ttlMs)
    {
      PruneExpired(pruneNow);
      var i := IndexOf(entries, id);
      if i == |entries| {
        return None;
      }
      if dims.Some? && (entries[i].cols != dims.value.cols || entries[i].rows != dims.value.rows) {
        Delete(id);
        return None;
      }
      r := Some(Snapshot(HeadlessState, entries[i].input));
      entries := entries[i := entries[i].(lastUsedAt := useNow)];
    }

    /** New output goes to a terminal that is already warm, and to no other. */
    method WriteExisting(id: Id, data: Bytes, pruneNow: int, useNow: int) returns (written: bool)
      requires Valid()
      modifies this
      ensures Valid()
      ensures entries == Written(old(entries), id, data, pruneNow - ttlMs, useNow)
      ensures written == Has(Fresh(old(entries), pruneNow - ttlMs), id)
    {
      PruneExpired(pruneNow);
      var i := IndexOf(entries, id);
      if i == |entries| {
        return false;
      }
      entries := entries[i := entries[i].(lastUsedAt := useNow, input := entries[i].input + data)];
      return true;
    }
  }

  lemma PutKeepsDistinct(es: seq<Entry>, e: Entry)
    requires Distinct(es)
    ensures Distinct(Put(es, e))
  {
  }

  lemma InputOfMember(es: seq<Entry>, e: Entry)
    requires Distinct(es) && e in es
    ensures Has(es, e.id) && es[IndexOf(es, e.id)] == e
  {
    var i :| 0 <= i < |es| && es[i] == e;
    var j := IndexOf(es, e.id);
    assert j <= i;
  }
}
