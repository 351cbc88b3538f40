/** Pruning the legacy split tree of panes down to the sessions that still exist. */
module PanePrune {
  import opened Wrappers

  type SessionId = nat

  datatype Orientation = Horizontal | Vertical

  /** `sizes` may be shorter than `children` in a persisted tree; a missing size stays missing. */
  datatype Pane =
    | Terminal(id: nat, sessionId: SessionId)
    | Browser(id: nat)
    | FileTree(id: nat)
    | Empty(id: nat)
    | Diff(id: nat)
    | Editor(id: nat)
    | Split(id: nat, direction: Orientation, children: seq<Pane>, sizes: seq<Option<real>>)

  datatype Sized = Sized(pane: Pane, size: Option<real>)

  function SizeAt(sizes: seq<Option<real>>, i: nat): Option<real> {
    if i < |sizes| then sizes[i] else None
  }

  /** Rebuild a split from what is left of its children. */
  function Collapse(id: nat, direction: Orientation, kept: seq<Sized>): Option<Pane> {
    if |kept| == 0 then None
    else if |kept| == 1 then Some(kept[0].pane)
    else Some(Split(id, direction, Panes(kept), Sizes(kept)))
  }

  function Panes(kept: seq<Sized>): (r: seq<Pane>)
    ensures |r| == |kept|
  {
    seq(|kept|, i requires 0 <= i < |kept| => kept[i].pane)
  }

  function Sizes(kept: seq<Sized>): (r: seq<Option<real>>)
    ensures |r| == |kept|
  {
    seq(|kept|, i requires 0 <= i < |kept| => kept[i].size)
  }

  function Prune(t: Pane, valid: set<SessionId>): Option<Pane>
    decreases t, 1, 0
  {
    match t
    case Terminal(_, sessionId) => if sessionId in valid then Some(t) else None
    case Split(id, direction, children, sizes) => Collapse(id, direction, PruneFirst(t, |children|, valid))
    case Editor(_) => None
    case _ => Some(t)
  }

  /** The survivors among the first `n` children, with their sizes. */
  function PruneFirst(t: Pane, n: nat, valid: set<SessionId>): seq<Sized>
    requires t.Split? && n <= |t.children|
    decreases t, 0, n
  {
    if n == 0 then []
    else
      var child := Prune(t.children[n - 1], valid);
      PruneFirst(t, n - 1, valid) + if child.Some? then [Sized(child.value, SizeAt(t.sizes, n - 1))] else []
  }

  // ---------------------------------------------------------------- composition

  /** Keep the survivors of a second pruning among the survivors of a first. */
  function Refilter(kept: seq<Sized>, valid: set<SessionId>): seq<Sized> {
    if kept == [] then []
    else
      var n := |kept| - 1;
      var p := Prune(kept[n].pane, valid);
      Refilter(kept[..n], valid) + if p.Some? then [Sized(p.value, kept[n].size)] else []
  }

  function ThenPrune(p: Option<Pane>, valid: set<SessionId>): Option<Pane> {
    if p.Some? then Prune(p.value, valid) else None
  }

  lemma {:induction false} PruneFirstIsRefilter(t: Pane, kept: seq<Sized>, n: nat, valid: set<SessionId>)
    requires t.Split? && t.children == Panes(kept) && t.sizes == Sizes(kept) && n <= |kept|
    ensures PruneFirst(t, n, valid) == Refilter(kept[..n], valid)
  {
    if n > 0 {
      PruneFirstIsRefilter(t, kept, n - 1, valid);
      assert kept[..n][..n - 1] == kept[..n - 1];
    }
  }

  lemma PruneCollapsed(id: nat, direction: Orientation, kept: seq<Sized>, valid: set<SessionId>)
    ensures ThenPrune(Collapse(id, direction, kept), valid) == Collapse(id, direction, Refilter(kept, valid))
  {
    if |kept| == 1 {
      assert kept[..0] == [];
      assert Refilter(kept[..0], valid) == [];
    } else if |kept| > 1 {
      var t := Split(id, direction, Panes(kept), Sizes(kept));
      PruneFirstIsRefilter(t, kept, |kept|, valid);
      assert kept[..|kept|] == kept;
    }
  }

  /** Main result: pruning twice is pruning once by the intersection, sizes included; pruning is
      therefore idempotent and the order of two prunings does not matter. */
  lemma {:induction false} PruneComposes(t: Pane, v: set<SessionId>, w: set<SessionId>)
    ensures ThenPrune(Prune(t, v), w) == Prune(t, v * w)
    decreases t, 1, 0
  {
    if t.Split? {
      PruneFirstComposes(t, |t.children|, v, w);
      PruneCollapsed(t.id, t.direction, PruneFirst(t, |t.children|, v), w);
    }
  }

  lemma {:induction false} PruneFirstComposes(t: Pane, n: nat, v: set<SessionId>, w: set<SessionId>)
    requires t.Split? && n <= |t.children|
    ensures Refilter(PruneFirst(t, n, v), w) == PruneFirst(t, n, v * w)
    decreases t, 0, n
  {
    if n > 0 {
      PruneFirstComposes(t, n - 1, v, w);
      PruneComposes(t.children[n - 1], v, w);
      var before, kept := PruneFirst(t, n - 1, v), PruneFirst(t, n, v);
      if Prune(t.children[n - 1], v).Some? {
        assert kept[..|kept| - 1] == before;
      } else {
        assert kept == before;
      }
    }
  }

  lemma PruneIsIdempotent(t: Pane, v: set<SessionId>)
    ensures ThenPrune(Prune(t, v), v) == Prune(t, v)
  {
    PruneComposes(t, v, v);
    assert v * v == v;
  }

  // ---------------------------------------------------------------- what is left

  predicate KeptLeaf(leaf: Pane, valid: set<SessionId>) {
    match leaf
    case Terminal(_, sessionId) => sessionId in valid
    case Editor(_) => false
    case Split(_, _, _, _) => false
    case _ => true
  }

  function Leaves(t: Pane): seq<Pane>
    decreases t, 1, 0
  {
    if t.Split? then LeavesFirst(t, |t.children|) else [t]
  }

  function LeavesFirst(t: Pane, n: nat): seq<Pane>
    requires t.Split? && n <= |t.children|
    decreases t, 0, n
  {
    if n == 0 then [] else LeavesFirst(t, n - 1) + Leaves(t.children[n - 1])
  }

  function Filter(leaves: seq<Pane>, valid: set<SessionId>): seq<Pane> {
    if leaves == [] then []
    else Filter(leaves[..|leaves| - 1], valid) +
         if KeptLeaf(leaves[|leaves| - 1], valid) then [leaves[|leaves| - 1]] else []
  }

  lemma {:induction false} FilterConcat(a: seq<Pane>, b: seq<Pane>, valid: set<SessionId>)
    ensures Filter(a + b, valid) == Filter(a, valid) + Filter(b, valid)
  {
    if b == [] {
      assert a + b == a;
    } else {
      FilterConcat(a, b[..|b| - 1], valid);
      assert (a + b)[..|a + b| - 1] == a + b[..|b| - 1];
    }
  }

  function LeavesOf(p: Option<Pane>): seq<Pane> {
    if p.Some? then Leaves(p.value) else []
  }

  function LeavesOfKept(kept: seq<Sized>): seq<Pane> {
    if kept == [] then [] else LeavesOfKept(kept[..|kept| - 1]) + Leaves(kept[|kept| - 1].pane)
  }

  lemma {:induction false} SplitLeaves(t: Pane, kept: seq<Sized>, n: nat)
    requires t.Split? && t.children == Panes(kept) && n <= |kept|
    ensures LeavesFirst(t, n) == LeavesOfKept(kept[..n])
  {
    if n > 0 {
      SplitLeaves(t, kept, n - 1);
      assert kept[..n][..n - 1] == kept[..n - 1];
    }
  }

  lemma CollapseKeepsLeaves(id: nat, direction: Orientation, kept: seq<Sized>)
    ensures LeavesOf(Collapse(id, direction, kept)) == LeavesOfKept(kept)
  {
    if |kept| == 1 {
      assert kept[..0] == [];
      assert LeavesOfKept(kept[..0]) == [];
    } else if |kept| > 1 {
      SplitLeaves(Split(id, direction, Panes(kept), Sizes(kept)), kept, |kept|);
      assert kept[..|kept|] == kept;
    }
  }

  /** Every remaining split has at least two children, and a size for each of them. */
  predicate Tidy(t: Pane)
    decreases t
  {
    t.Split? ==>
      |t.children| >= 2 && |t.sizes| == |t.children| && forall i :: 0 <= i < |t.children| ==> Tidy(t.children[i])
  }

  /** What remains are the kept leaves in their old order, in a tidy tree; nothing remains exactly
      when no leaf is kept. */
  lemma {:induction false} PruneKeepsLeaves(t: Pane, valid: set<SessionId>)
    ensures LeavesOf(Prune(t, valid)) == Filter(Leaves(t), valid)
    ensures Prune(t, valid).Some? ==> Tidy(Prune(t, valid).value)
    ensures Prune(t, valid).None? <==> Filter(Leaves(t), valid) == []
    decreases t, 1, 0
  {
    if t.Split? {
      var kept := PruneFirst(t, |t.children|, valid);
      PruneFirstKeepsLeaves(t, |t.children|, valid);
      CollapseKeepsLeaves(t.id, t.direction, kept);
    } else {
      assert Filter([t][..0], valid) == [];
    }
  }

  lemma {:induction false} PruneFirstKeepsLeaves(t: Pane, n: nat, valid: set<SessionId>)
    requires t.Split? && n <= |t.children|
    ensures LeavesOfKept(PruneFirst(t, n, valid)) == Filter(LeavesFirst(t, n), valid)
    ensures forall i :: 0 <= i < |PruneFirst(t, n, valid)| ==> Tidy(PruneFirst(t, n, valid)[i].pane)
    ensures PruneFirst(t, n, valid) == [] <==> Filter(LeavesFirst(t, n), valid) == []
    decreases t, 0, n
  {
    if n > 0 {
      var child := t.children[n - 1];
      assert LeavesFirst(t, n) == LeavesFirst(t, n - 1) + Leaves(child);
      hide Filter, LeavesFirst, Leaves, Tidy, Prune;
      PruneFirstKeepsLeaves(t, n - 1, valid);
      PruneKeepsLeaves(child, valid);
      FilterConcat(LeavesFirst(t, n - 1), Leaves(child), valid);
      var before, kept := PruneFirst(t, n - 1, valid), PruneFirst(t, n, valid);
      if Prune(child, valid).Some? {
        assert kept[..|kept| - 1] == before;
      } else {
        assert kept == before;
      }
    }
  }

  /** The children, among the first `n`, in which a leaf is kept. */
  function Survivors(t: Pane, n: nat, valid: set<SessionId>): (r: seq<nat>)
    requires t.Split? && n <= |t.children|
    ensures forall k :: 0 <= k < |r| ==> r[k] < n
  {
    if n == 0 then []
    else Survivors(t, n - 1, valid) + if Filter(Leaves(t.children[n - 1]), valid) != [] then [n - 1] else []
  }

  /** A child, pruned, with the size it had. */
  predicate IsChild(t: Pane, i: nat, valid: set<SessionId>, kept: Sized) {
    && t.Split? && i < |t.children|
    && Prune(t.children[i], valid) == Some(kept.pane)
    && kept.size == if i < |t.sizes| then t.sizes[i] else None
  }

  lemma {:induction false} PruneFirstSurvivors(t: Pane, n: nat, valid: set<SessionId>)
    requires t.Split? && n <= |t.children|
    ensures var kept, alive := PruneFirst(t, n, valid), Survivors(t, n, valid);
            |kept| == |alive| && forall k :: 0 <= k < |kept| ==> IsChild(t, alive[k], valid, kept[k])
    decreases n
  {
    if n > 0 {
      PruneFirstSurvivors(t, n - 1, valid);
      PruneKeepsLeaves(t.children[n - 1], valid);
    }
    hide Prune, Filter, Leaves;
  }

  /** What becomes of a split: nothing if no child has a kept leaf; the pruned child itself if one has; and
      otherwise the same split, in the same direction, of the pruned children in their order, each with
      its own size. A leaf stays as it is or goes. */
  lemma PruneSplits(t: Pane, valid: set<SessionId>)
    ensures var r := Prune(t, valid);
            && (!t.Split? ==> r == if KeptLeaf(t, valid) then Some(t) else None)
            && (t.Split? ==>
                  var alive := Survivors(t, |t.children|, valid);
                  && (r.None? <==> alive == [])
                  && (|alive| == 1 ==> r == Prune(t.children[alive[0]], valid))
                  && (|alive| >= 2 ==>
                        && r.Some? && r.value.Split? && r.value.id == t.id && r.value.direction == t.direction
                        && |r.value.children| == |r.value.sizes| == |alive|
                        && forall k :: 0 <= k < |alive| ==>
                             IsChild(t, alive[k], valid, Sized(r.value.children[k], r.value.sizes[k]))))
  {
    if t.Split? {
      PruneFirstSurvivors(t, |t.children|, valid);
    }
  }

  // ---------------------------------------------------------------- the code

  method PruneOrphanPanes(node: Pane, validIds: set<SessionId>) returns (r: Option<Pane>)
    ensures r == Prune(node, validIds)
    decreases node
  {
    match node
    case Terminal(_, sessionId) =>
      return if sessionId in validIds then Some(node) else None;
    case Split(id, direction, nodes, nodeSizes) =>
      var children: seq<Pane>, sizes: seq<Option<real>> := [], [];
      for i := 0 to |nodes|
        invariant children == Panes(PruneFirst(node, i, validIds)) && sizes == Sizes(PruneFirst(node, i, validIds))
      {
        var child := PruneOrphanPanes(nodes[i], validIds);
        if child.Some? {
          children := children + [child.value];
          sizes := sizes + [SizeAt(nodeSizes, i)];
        }
      }
      if |children| == 0 {
        return None;
      }
      if |children| == 1 {
        return Some(children[0]);
      }
      return Some(Split(id, direction, children, sizes));
    case Editor(_) =>
      return None;
    case _ =>
      return Some(node);
  }
}
