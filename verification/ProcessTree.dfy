/** The descendant walk of the port scanner: breadth first, bounded by depth, no visited set. */
module ProcessTree {
  type Pid = nat
  type Tree = map<Pid, set<Pid>>

  datatype Visit = Visit(pid: Pid, depth: nat)

  function ChildrenOf(tree: Tree, p: Pid): set<Pid> {
    if p in tree then tree[p] else {}
  }

  /** `c` lies at the end of a walk of exactly `n` edges from `p`; walks may repeat nodes. */
  ghost predicate Walk(tree: Tree, p: Pid, c: Pid, n: nat)
    decreases n
  {
    if n == 0 then p == c else exists q :: q in ChildrenOf(tree, p) && Walk(tree, q, c, n - 1)
  }

  ghost predicate Descendant(tree: Tree, root: Pid, c: Pid, maxDepth: nat) {
    exists n :: 1 <= n <= maxDepth && Walk(tree, root, c, n)
  }

  /** Everything at the end of a walk of one to `m` edges. */
  ghost function Reach(tree: Tree, p: Pid, m: nat): set<Pid>
    decreases m, 0
  {
    if m == 0 then {} else ChildrenOf(tree, p) + ReachAll(tree, ChildrenOf(tree, p), m - 1)
  }

  ghost function ReachAll(tree: Tree, ps: set<Pid>, m: nat): set<Pid>
    decreases m, 1
  {
    set p, c | p in ps && c in Reach(tree, p, m) :: c
  }

  lemma {:induction false} ReachIsWalks(tree: Tree, p: Pid, m: nat, c: Pid)
    ensures c in Reach(tree, p, m) <==> Descendant(tree, p, c, m)
    decreases m
  {
    if c in Reach(tree, p, m) {
      if c in ChildrenOf(tree, p) {
        assert Walk(tree, c, c, 0);
        assert Walk(tree, p, c, 1);
      } else {
        assert c in ReachAll(tree, ChildrenOf(tree, p), m - 1);
        var q :| q in ChildrenOf(tree, p) && c in Reach(tree, q, m - 1);
        ReachIsWalks(tree, q, m - 1, c);
        var n :| 1 <= n <= m - 1 && Walk(tree, q, c, n);
        assert Walk(tree, p, c, n + 1);
      }
    }
    if n :| 1 <= n <= m && Walk(tree, p, c, n) {
      WalkIsReached(tree, p, m, c, n);
    }
  }

  lemma {:induction false} WalkIsReached(tree: Tree, p: Pid, m: nat, c: Pid, n: nat)
    requires 1 <= n <= m && Walk(tree, p, c, n)
    ensures c in Reach(tree, p, m)
    decreases n
  {
    var q :| q in ChildrenOf(tree, p) && Walk(tree, q, c, n - 1);
    if n > 1 {
      WalkIsReached(tree, q, m - 1, c, n - 1);
      assert q in ChildrenOf(tree, p) && c in Reach(tree, q, m - 1);
      assert c in ReachAll(tree, ChildrenOf(tree, p), m - 1);
    } else {
      assert Walk(tree, q, c, 0);
    }
  }

  // ---------------------------------------------------------------- termination measure

  function Nodes(tree: Tree): set<Pid> {
    set p, c | p in tree && c in tree[p] :: c
  }

  /** An entry with `r` levels left costs one step and pays for as many children as there can be. */
  function Cost(branching: nat, r: nat): nat {
    if r == 0 then 1 else 1 + branching * Cost(branching, r - 1)
  }

  ghost function QueueCost(branching: nat, maxDepth: nat, queue: seq<Visit>): nat {
    if queue == [] then 0
    else QueueCost(branching, maxDepth, queue[..|queue| - 1]) + EntryCost(branching, maxDepth, queue[|queue| - 1])
  }

  ghost function EntryCost(branching: nat, maxDepth: nat, v: Visit): nat {
    if v.depth >= maxDepth then 1 else Cost(branching, maxDepth - v.depth)
  }

  lemma {:induction false} QueueCostConcat(branching: nat, maxDepth: nat, a: seq<Visit>, b: seq<Visit>)
    ensures QueueCost(branching, maxDepth, a + b)
            == QueueCost(branching, maxDepth, a) + QueueCost(branching, maxDepth, b)
  {
    if b == [] {
      assert a + b == a;
    } else {
      QueueCostConcat(branching, maxDepth, a, b[..|b| - 1]);
      assert (a + b)[..|a + b| - 1] == a + b[..|b| - 1];
    }
  }

  // ---------------------------------------------------------------- what the queue still owes

  ghost function EntryReach(tree: Tree, maxDepth: nat, v: Visit): set<Pid> {
    if v.depth >= maxDepth then {} else Reach(tree, v.pid, maxDepth - v.depth)
  }

  ghost function Owed(tree: Tree, maxDepth: nat, queue: seq<Visit>): set<Pid> {
    if queue == [] then {}
    else Owed(tree, maxDepth, queue[..|queue| - 1]) + EntryReach(tree, maxDepth, queue[|queue| - 1])
  }

  lemma {:induction false} OwedConcat(tree: Tree, maxDepth: nat, a: seq<Visit>, b: seq<Visit>)
    ensures Owed(tree, maxDepth, a + b) == Owed(tree, maxDepth, a) + Owed(tree, maxDepth, b)
  {
    hide EntryReach;
    if b == [] {
      assert a + b == a;
    } else {
      OwedConcat(tree, maxDepth, a, b[..|b| - 1]);
      assert (a + b)[..|a + b| - 1] == a + b[..|b| - 1];
    }
  }

  lemma OwedOne(tree: Tree, maxDepth: nat, branching: nat, v: Visit)
    ensures Owed(tree, maxDepth, [v]) == EntryReach(tree, maxDepth, v)
    ensures QueueCost(branching, maxDepth, [v]) == EntryCost(branching, maxDepth, v)
  {
    hide EntryReach, EntryCost;
    var one := [v];
    assert one[..0] == [];
  }

  lemma OwedPop(tree: Tree, maxDepth: nat, queue: seq<Visit>, branching: nat)
    requires queue != []
    ensures Owed(tree, maxDepth, queue) == EntryReach(tree, maxDepth, queue[0]) + Owed(tree, maxDepth, queue[1..])
    ensures QueueCost(branching, maxDepth, queue)
            == EntryCost(branching, maxDepth, queue[0]) + QueueCost(branching, maxDepth, queue[1..])
  {
    hide EntryReach, EntryCost, Owed, QueueCost;
    OwedOne(tree, maxDepth, branching, queue[0]);
    OwedConcat(tree, maxDepth, [queue[0]], queue[1..]);
    QueueCostConcat(branching, maxDepth, [queue[0]], queue[1..]);
    assert [queue[0]] + queue[1..] == queue;
  }

  lemma OwedPush(tree: Tree, maxDepth: nat, queue: seq<Visit>, branching: nat, v: Visit)
    ensures Owed(tree, maxDepth, queue + [v]) == Owed(tree, maxDepth, queue) + EntryReach(tree, maxDepth, v)
    ensures QueueCost(branching, maxDepth, queue + [v])
            == QueueCost(branching, maxDepth, queue) + EntryCost(branching, maxDepth, v)
  {
    hide EntryReach, EntryCost, Owed, QueueCost;
    OwedOne(tree, maxDepth, branching, v);
    OwedConcat(tree, maxDepth, queue, [v]);
    QueueCostConcat(branching, maxDepth, queue, [v]);
  }

  lemma ReachAllExtends(tree: Tree, a: set<Pid>, p: Pid, m: nat)
    ensures ReachAll(tree, a + {p}, m) == ReachAll(tree, a, m) + Reach(tree, p, m)
  {
    hide Reach;
  }

  /** The children of an entry cost less than the entry itself. */
  lemma ChildrenAreCheaper(tree: Tree, maxDepth: nat, v: Visit)
    requires v.depth < maxDepth && v.pid in tree
    ensures |tree[v.pid]| * Cost(|Nodes(tree)|, maxDepth - v.depth - 1) < EntryCost(|Nodes(tree)|, maxDepth, v)
  {
    var children, all := tree[v.pid], Nodes(tree);
    assert children <= all;
    SubsetSize(children, all);
    var c := Cost(|all|, maxDepth - v.depth - 1);
    assert EntryCost(|all|, maxDepth, v) == 1 + |all| * c;
    Multiply(|children|, |all|, c);
  }

  lemma Multiply(a: nat, b: nat, c: nat)
    requires a <= b
    ensures a * c <= b * c
  {
    assert b * c == a * c + (b - a) * c;
  }

  /** Main result: on every tree or graph, cycles included, the walk ends and returns exactly the
      nodes at the end of a walk of one to `maxDepth` edges from the root. */
  method FindDescendantPids(root: Pid, tree: Tree, maxDepth: nat) returns (result: set<Pid>)
    ensures forall c: Pid :: c in result <==> Descendant(tree, root, c, maxDepth)
  {
    result := Search(root, tree, maxDepth);
    forall c: Pid ensures c in result <==> Descendant(tree, root, c, maxDepth) {
      ReachIsWalks(tree, root, maxDepth, c);
    }
  }

  method Search(root: Pid, tree: Tree, maxDepth: nat) returns (result: set<Pid>)
    ensures result == Reach(tree, root, maxDepth)
  {
    hide Owed, QueueCost, EntryCost, ReachAll, Nodes;
    ghost var branching := |Nodes(tree)|;
    result := {};
    var queue := [Visit(root, 0)];
    OwedOne(tree, maxDepth, branching, queue[0]);
    while queue != []
      invariant result + Owed(tree, maxDepth, queue) == Reach(tree, root, maxDepth)
      decreases QueueCost(branching, maxDepth, queue)
    {
      var next := queue[0];
      OwedPop(tree, maxDepth, queue, branching);
      PositiveCost(branching, maxDepth, next);
      queue := queue[1..];
      if next.depth < maxDepth && next.pid in tree {
        ChildrenAreCheaper(tree, maxDepth, next);
        result, queue := PushChildren(tree, maxDepth, tree[next.pid], next.depth + 1, result, queue, branching);
      } else {
        assert EntryReach(tree, maxDepth, next) == {} by { NoChildrenNoReach(tree, maxDepth, next); }
      }
    }
    assert Owed(tree, maxDepth, []) == {} by { NothingOwed(tree, maxDepth); }
  }

  lemma NothingOwed(tree: Tree, maxDepth: nat)
    ensures Owed(tree, maxDepth, []) == {}
  {
  }

  lemma PositiveCost(branching: nat, maxDepth: nat, v: Visit)
    ensures EntryCost(branching, maxDepth, v) > 0
  {
  }

  lemma NoChildrenNoReach(tree: Tree, maxDepth: nat, v: Visit)
    requires v.depth >= maxDepth || v.pid !in tree
    ensures EntryReach(tree, maxDepth, v) == {}
  {
    if v.depth < maxDepth {
      assert ReachAll(tree, {}, maxDepth - v.depth - 1) == {};
    }
  }

  /** `queue` is `queue0` with the children in `done` added at `depth`. */
  ghost predicate Pushed(tree: Tree, maxDepth: nat, branching: nat, queue0: seq<Visit>, queue: seq<Visit>, depth: nat,
                         done: set<Pid>)
    requires depth <= maxDepth
  {
    && Owed(tree, maxDepth, queue) == Owed(tree, maxDepth, queue0) + ReachAll(tree, done, maxDepth - depth)
    && QueueCost(branching, maxDepth, queue)
       == QueueCost(branching, maxDepth, queue0) + |done| * Cost(branching, maxDepth - depth)
  }

  predicate Split(todo: set<Pid>, done: set<Pid>, all: set<Pid>) {
    todo !! done && todo + done == all
  }

  lemma MoveOne(todo: set<Pid>, done: set<Pid>, all: set<Pid>, x: Pid)
    requires Split(todo, done, all) && x in todo
    ensures Split(todo - {x}, done + {x}, all) && x !in done
  {
  }

  lemma AllMoved(done: set<Pid>, all: set<Pid>)
    requires Split({}, done, all)
    ensures done == all
  {
  }

  /** The inner loop: every child joins the result and the queue, one level deeper. */
  method PushChildren(tree: Tree, maxDepth: nat, children: set<Pid>, depth: nat, result0: set<Pid>, queue0: seq<Visit>,
                      ghost branching: nat)
    returns (result: set<Pid>, queue: seq<Visit>)
    requires depth <= maxDepth
    ensures result == result0 + children
    ensures Pushed(tree, maxDepth, branching, queue0, queue, depth, children)
  {
    NothingPushed(tree, maxDepth, branching, queue0, depth);
    result, queue := result0, queue0;
    var todo, done: set<Pid> := children, {};
    assert Split(todo, done, children);
    hide *;
    while todo != {}
      invariant Split(todo, done, children) && result == result0 + done
      invariant Pushed(tree, maxDepth, branching, queue0, queue, depth, done)
      decreases todo
    {
      var child :| child in todo;
      MoveOne(todo, done, children, child);
      ChildPushed(tree, maxDepth, branching, queue0, queue, child, depth, done);
      JoinOne(result0, done, child);
      result := result + {child};
      queue := queue + [Visit(child, depth)];
      todo, done := todo - {child}, done + {child};
    }
    AllMoved(done, children);
  }

  lemma JoinOne(result0: set<Pid>, done: set<Pid>, child: Pid)
    ensures (result0 + done) + {child} == result0 + (done + {child})
  {
  }

  lemma ChildPushed(tree: Tree, maxDepth: nat, branching: nat, queue0: seq<Visit>, queue: seq<Visit>, child: Pid,
                    depth: nat, done: set<Pid>)
    requires depth <= maxDepth && child !in done && Pushed(tree, maxDepth, branching, queue0, queue, depth, done)
    ensures Pushed(tree, maxDepth, branching, queue0, queue + [Visit(child, depth)], depth, done + {child})
  {
    hide Owed, QueueCost, Reach, ReachAll, Cost;
    var v, cost := Visit(child, depth), Cost(branching, maxDepth - depth);
    EntryValues(tree, maxDepth, branching, v);
    OwedPush(tree, maxDepth, queue, branching, v);
    ReachAllExtends(tree, done, child, maxDepth - depth);
    assert |done + {child}| == |done| + 1;
    OneMore(|done|, cost);
  }

  lemma OneMore(a: nat, c: nat)
    ensures (a + 1) * c == a * c + c
  {
  }

  lemma NothingPushed(tree: Tree, maxDepth: nat, branching: nat, queue: seq<Visit>, depth: nat)
    requires depth <= maxDepth
    ensures Pushed(tree, maxDepth, branching, queue, queue, depth, {})
  {
    assert ReachAll(tree, {}, maxDepth - depth) == {};
  }

  lemma EntryValues(tree: Tree, maxDepth: nat, branching: nat, v: Visit)
    requires v.depth <= maxDepth
    ensures EntryReach(tree, maxDepth, v) == Reach(tree, v.pid, maxDepth - v.depth)
    ensures EntryCost(branching, maxDepth, v) == Cost(branching, maxDepth - v.depth)
  {
  }

  lemma {:induction false} SubsetSize(a: set<Pid>, b: set<Pid>)
    requires a <= b
    ensures |a| <= |b|
  {
    if a != {} {
      var x :| x in a;
      SubsetSize(a - {x}, b - {x});
    }
  }
}
