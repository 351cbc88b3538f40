/** The FIFO mutex that serialises a session's mutex-holding operations. */
module PromiseMutex {
  import opened Wrappers

  type Waiter = nat

  /** `requested`, `granted` and `released` record what happened, in order. */
  datatype Lock = Lock(locked: bool, queue: seq<Waiter>, requested: seq<Waiter>, granted: seq<Waiter>, released: nat)

  const UNLOCKED := Lock(false, [], [], [], 0)

  function Acquire(l: Lock, w: Waiter): Lock {
    if !l.locked then l.(locked := true, requested := l.requested + [w], granted := l.granted + [w])
    else l.(queue := l.queue + [w], requested := l.requested + [w])
  }

  /** A call of the release function; on an unlocked mutex it changes nothing. */
  function Release(l: Lock): Lock {
    if l.queue != [] then
      l.(locked := true, queue := l.queue[1..], granted := l.granted + [l.queue[0]], released := l.released + 1)
    else l.(locked := false, released := if l.locked then l.released + 1 else l.released)
  }

  predicate LockInv(l: Lock) {
    && l.granted + l.queue == l.requested
    && (!l.locked ==> l.queue == [])
    && |l.granted| == l.released + if l.locked then 1 else 0
  }

  datatype Op = AcquireOp(w: Waiter) | ReleaseOp

  function Apply(l: Lock, op: Op): Lock {
    if op.AcquireOp? then Acquire(l, op.w) else Release(l)
  }

  function LockRun(l: Lock, ops: seq<Op>): Lock
    decreases |ops|
  {
    if ops == [] then l
    else LockRun(Apply(l, ops[0]), ops[1..])
  }

  lemma AcquireKeeps(l: Lock, w: Waiter)
    requires LockInv(l)
    ensures LockInv(Acquire(l, w))
  {
    assert l.granted + (l.queue + [w]) == l.requested + [w];
  }

  lemma ReleaseKeeps(l: Lock)
    requires LockInv(l)
    ensures LockInv(Release(l))
  {
    if l.locked && l.queue != [] {
      assert l.granted + [l.queue[0]] + l.queue[1..] == l.requested;
    }
  }

  lemma {:induction false} RunKeepsLockInv(l: Lock, ops: seq<Op>)
    requires LockInv(l)
    ensures LockInv(LockRun(l, ops))
    decreases |ops|
  {
    hide LockInv, Acquire, Release;
    if ops != [] {
      if ops[0].AcquireOp? {
        AcquireKeeps(l, ops[0].w);
        RunKeepsLockInv(Acquire(l, ops[0].w), ops[1..]);
      } else {
        ReleaseKeeps(l);
        RunKeepsLockInv(Release(l), ops[1..]);
      }
    }
  }

  /** Over every run: at most one grant is unreleased, and the grants are the requests in the order
      they were made, with nobody skipped. */
  lemma MutualExclusionInOrder(ops: seq<Op>)
    ensures var l := LockRun(UNLOCKED, ops);
            && l.released <= |l.granted| <= l.released + 1
            && l.granted <= l.requested
            && (!l.locked ==> l.granted == l.requested)
  {
    RunKeepsLockInv(UNLOCKED, ops);
  }

  function Releases(ops: seq<Op>): nat {
    if ops == [] then 0 else (if ops[0].ReleaseOp? then 1 else 0) + Releases(ops[1..])
  }

  /** Who asked, in order. */
  function Requests(ops: seq<Op>): seq<Waiter> {
    if ops == [] then [] else (if ops[0].AcquireOp? then [ops[0].w] else []) + Requests(ops[1..])
  }

  lemma {:induction false} RunCounts(l: Lock, ops: seq<Op>)
    ensures LockRun(l, ops).requested == l.requested + Requests(ops)
    ensures LockRun(l, ops).released <= l.released + Releases(ops)
    decreases |ops|
  {
    if ops == [] {
      assert l.requested + [] == l.requested;
    } else {
      var now: seq<Waiter> := if ops[0].AcquireOp? then [ops[0].w] else [];
      assert Apply(l, ops[0]).requested == l.requested + now;
      RunCounts(Apply(l, ops[0]), ops[1..]);
      assert l.requested + now + Requests(ops[1..]) == l.requested + (now + Requests(ops[1..]));
    }
  }

  /** Main result: over every run everyone who asked has been granted the lock or waits for it, in the
      order they asked; at most one more is granted than there were releases; and a free lock has
      nobody waiting. */
  lemma EveryRequestIsKept(ops: seq<Op>)
    ensures var l := LockRun(UNLOCKED, ops);
            && l.granted + l.queue == Requests(ops)
            && |l.granted| <= Releases(ops) + 1
            && (!l.locked ==> l.queue == [])
  {
    RunKeepsLockInv(UNLOCKED, ops);
    RunCounts(UNLOCKED, ops);
    assert [] + Requests(ops) == Requests(ops);
  }

  /** What has been granted stays granted. */
  lemma {:induction false} GrantsStay(l: Lock, ops: seq<Op>)
    ensures l.granted <= LockRun(l, ops).granted
    decreases |ops|
  {
    if ops != [] {
      GrantsStay(Apply(l, ops[0]), ops[1..]);
    }
  }

  /** Nobody waits forever: in every run, however many new requests come in between, the release that
      is one more than there are requests ahead grants the lock to whom it is due. */
  lemma {:induction false} EveryWaiterIsServed(l: Lock, ops: seq<Op>, k: nat)
    requires LockInv(l) && k < |l.queue| && Releases(ops) >= k + 1
    ensures var granted := LockRun(l, ops).granted;
            |l.granted| + k < |granted| && granted[|l.granted| + k] == l.queue[k]
    decreases |ops|
  {
    var next := Apply(l, ops[0]);
    if ops[0].AcquireOp? {
      AcquireKeeps(l, ops[0].w);
      EveryWaiterIsServed(next, ops[1..], k);
    } else {
      ReleaseKeeps(l);
      if k > 0 {
        EveryWaiterIsServed(next, ops[1..], k - 1);
      } else {
        GrantsStay(next, ops[1..]);
      }
    }
  }

  class Mutex {
    var locked: bool
    var queue: seq<Waiter>
    ghost var requested: seq<Waiter>
    ghost var granted: seq<Waiter>
    ghost var released: nat

    ghost function State(): Lock
      reads this
    {
      Lock(locked, queue, requested, granted, released)
    }

    constructor ()
      ensures State() == UNLOCKED
    {
      locked, queue, requested, granted, released := false, [], [], [], 0;
    }

    /** `true` when the promise is already resolved, `false` when the caller must wait. */
    method AcquireLock(w: Waiter) returns (granted1: bool)
      modifies this
      ensures State() == Acquire(old(State()), w) && granted1 == !old(locked)
    {
      requested := requested + [w];
      if !locked {
        locked := true;
        granted := granted + [w];
        return true;
      }
      queue := queue + [w];
      return false;
    }

    method ReleaseLock() returns (next: Option<Waiter>)
      modifies this
      ensures State() == Release(old(State()))
      ensures next == if old(queue) == [] then None else Some(old(queue)[0])
    {
      if queue != [] {
        var w := queue[0];
        queue := queue[1..];
        locked := true;
        granted, released := granted + [w], released + 1;
        return Some(w);
      }
      released := if locked then released + 1 else released;
      locked := false;
      return None;
    }
  }
}
