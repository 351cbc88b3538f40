/** The local mirror of the daemon's sessions and the per-session generation latch. */
module SessionMirror {
  import opened Wrappers

  type Id = nat

  /** The fields of a session that the mirror looks at. */
  datatype SessionInfo = SessionInfo(id: Id, generation: nat, ended: bool)

  datatype Mirror = Mirror(sessions: map<Id, SessionInfo>, latest: map<Id, nat>)

  const EMPTY := Mirror(map[], map[])

  function GenerationOf(m: Mirror, id: Id): nat {
    if id in m.latest then m.latest[id] else 0
  }

  /** The latch only moves forward. */
  function Observe(m: Mirror, id: Id, generation: nat): Mirror {
    if generation > GenerationOf(m, id) then m.(latest := m.latest[id := generation]) else m
  }

  function Upsert(m: Mirror, s: SessionInfo): Mirror {
    Observe(m.(sessions := m.sessions[s.id := s]), s.id, s.generation)
  }

  function UpsertAll(m: Mirror, list: seq<SessionInfo>): Mirror {
    if list == [] then m else Upsert(UpsertAll(m, list[..|list| - 1]), list[|list| - 1])
  }

  function ApplyList(m: Mirror, list: seq<SessionInfo>): Mirror {
    UpsertAll(m.(sessions := map[]), list)
  }

  function ApplyExit(m: Mirror, id: Id): Mirror {
    if id in m.sessions then m.(sessions := m.sessions[id := m.sessions[id].(ended := true)]) else m
  }

  function Remove(m: Mirror, id: Id): Mirror {
    Mirror(m.sessions - {id}, m.latest - {id})
  }

  datatype Event =
    | Snapshot(s: SessionInfo)
    | List(list: seq<SessionInfo>)
    | DataFrom(id: Id, generation: nat)
    | Patched(s: SessionInfo)
    | Exited(id: Id)
    | Removed(id: Id)
    | AllRemoved

  function Step(m: Mirror, e: Event): Mirror {
    match e
    case Snapshot(s) => Upsert(m, s)
    case List(list) => ApplyList(m, list)
    case DataFrom(id, generation) => Observe(m, id, generation)
    case Patched(s) => m.(sessions := m.sessions[s.id := s])
    case Exited(id) => ApplyExit(m, id)
    case Removed(id) => Remove(m, id)
    case AllRemoved => EMPTY
  }

  function Run(es: seq<Event>): Mirror {
    if es == [] then EMPTY else Step(Run(es[..|es| - 1]), es[|es| - 1])
  }

  // ---------------------------------------------------------------- what was observed

  function Generations(list: seq<SessionInfo>, id: Id): seq<nat> {
    if list == [] then []
    else Generations(list[..|list| - 1], id) + if list[|list| - 1].id == id then [list[|list| - 1].generation] else []
  }

  /** What one event adds to, or takes from, the observations of `id`. */
  function ObservedStep(before: seq<nat>, e: Event, id: Id): seq<nat> {
    match e
    case Snapshot(s) => if s.id == id then before + [s.generation] else before
    case List(list) => before + Generations(list, id)
    case DataFrom(d, generation) => if d == id then before + [generation] else before
    case Removed(d) => if d == id then [] else before
    case AllRemoved => []
    case _ => before
  }

  /** The generations of `id` in snapshots and DATA since it was last removed. */
  function Observed(es: seq<Event>, id: Id): seq<nat> {
    if es == [] then [] else ObservedStep(Observed(es[..|es| - 1], id), es[|es| - 1], id)
  }

  function MaxOf(gs: seq<nat>): nat {
    if gs == [] then 0
    else
      var m := MaxOf(gs[..|gs| - 1]);
      if gs[|gs| - 1] > m then gs[|gs| - 1] else m
  }

  lemma MaxOfAppend(gs: seq<nat>, g: nat)
    ensures MaxOf(gs + [g]) == if g > MaxOf(gs) then g else MaxOf(gs)
  {
    assert (gs + [g])[..|gs + [g]| - 1] == gs;
  }

  lemma {:induction false} UpsertAllObserves(m: Mirror, list: seq<SessionInfo>, id: Id, before: seq<nat>)
    requires GenerationOf(m, id) == MaxOf(before)
    ensures GenerationOf(UpsertAll(m, list), id) == MaxOf(before + Generations(list, id))
  {
    hide MaxOf;
    if list == [] {
      assert before + [] == before;
    } else {
      var n := |list| - 1;
      UpsertAllObserves(m, list[..n], id, before);
      var gs := before + Generations(list[..n], id);
      MaxOfAppend(gs, list[n].generation);
      if list[n].id == id {
        assert before + Generations(list, id) == gs + [list[n].generation];
      } else {
        assert before + Generations(list, id) == gs;
      }
    }
  }

  lemma StepObserves(m: Mirror, before: seq<nat>, e: Event, id: Id)
    requires GenerationOf(m, id) == MaxOf(before)
    ensures GenerationOf(Step(m, e), id) == MaxOf(ObservedStep(before, e, id))
  {
    assert MaxOf([]) == 0;
    hide MaxOf, UpsertAll, Generations;
    match e
    case Snapshot(s) => MaxOfAppend(before, s.generation);
    case List(list) => UpsertAllObserves(m.(sessions := map[]), list, id, before);
    case DataFrom(d, generation) => MaxOfAppend(before, generation);
    case _ =>
  }

  /** Main result: between removals the latch is the highest generation seen in snapshots and DATA. */
  lemma {:induction false} LatchIsMaximum(es: seq<Event>, id: Id)
    ensures GenerationOf(Run(es), id) == MaxOf(Observed(es, id))
  {
    if es == [] {
      assert MaxOf([]) == 0;
    } else {
      var n := |es| - 1;
      LatchIsMaximum(es[..n], id);
      StepObserves(Run(es[..n]), Observed(es[..n], id), es[n], id);
      hide Step, MaxOf, ObservedStep, GenerationOf;
    }
  }

  // ---------------------------------------------------------------- which sessions are known

  /** What an event leaves known of session `id`: its newest snapshot, marked ended once it has exited,
      until it is removed or missing from a list; the latest of several entries of a list counts. */
  lemma StepKnows(m: Mirror, e: Event, id: Id)
    ensures var n := Step(m, e).sessions;
            match e
            case Snapshot(s) => n == m.sessions[s.id := s]
            case Patched(s) => n == m.sessions[s.id := s]
            case DataFrom(_, _) => n == m.sessions
            case Exited(d) =>
              n == if d in m.sessions
                   then m.sessions[d := SessionInfo(m.sessions[d].id, m.sessions[d].generation, true)] else m.sessions
            case Removed(d) => n == m.sessions - {d}
            case AllRemoved => n == map[]
            case List(list) => (id in n <==> Lists(list, id)) && forall k :: LastListed(list, k, id) ==> n[id] == list[k]
  {
    if e.List? {
      ListKnows(m.(sessions := map[]), e.list, id);
    }
  }

  predicate Lists(list: seq<SessionInfo>, id: Id) {
    exists k :: 0 <= k < |list| && list[k].id == id
  }

  predicate LastListed(list: seq<SessionInfo>, k: int, id: Id) {
    0 <= k < |list| && list[k].id == id && forall i :: k < i < |list| ==> list[i].id != id
  }

  lemma {:induction false} ListKnows(m: Mirror, list: seq<SessionInfo>, id: Id)
    ensures var n := UpsertAll(m, list).sessions;
            && (id in n <==> id in m.sessions || Lists(list, id))
            && forall k :: LastListed(list, k, id) ==> n[id] == list[k]
  {
    if list != [] {
      var n := |list| - 1;
      ListKnows(m, list[..n], id);
      assert Lists(list, id) <==> Lists(list[..n], id) || list[n].id == id by {
        if k :| 0 <= k < n && list[..n][k].id == id {
          assert list[k].id == id;
        }
        if k :| 0 <= k < |list| && list[k].id == id {
          assert k < n ==> list[..n][k].id == id;
        }
      }
      forall k | LastListed(list, k, id) ensures UpsertAll(m, list).sessions[id] == list[k] {
        assert k < n ==> LastListed(list[..n], k, id);
      }
    }
  }

  /** Snapshots, lists and DATA raise the latch to what they carry, a removal forgets it, and an
      optimistic patch and an exit leave it alone. */
  lemma StepLatches(m: Mirror, e: Event, id: Id)
    ensures var g, h := GenerationOf(m, id), GenerationOf(Step(m, e), id);
            match e
            case Snapshot(s) => h == if s.id == id && s.generation > g then s.generation else g
            case DataFrom(d, generation) => h == if d == id && generation > g then generation else g
            case Patched(_) => h == g
            case Exited(_) => h == g
            case Removed(d) => h == if d == id then 0 else g
            case AllRemoved => h == 0
            case List(list) =>
              && h >= g && (forall k :: 0 <= k < |list| && list[k].id == id ==> h >= list[k].generation)
              && (h == g || exists k :: 0 <= k < |list| && list[k].id == id && list[k].generation == h)
  {
    if e.List? {
      ListLatches(m.(sessions := map[]), e.list, id);
    }
  }

  lemma {:induction false} ListLatches(m: Mirror, list: seq<SessionInfo>, id: Id)
    ensures var g, h := GenerationOf(m, id), GenerationOf(UpsertAll(m, list), id);
            && h >= g && (forall k :: 0 <= k < |list| && list[k].id == id ==> h >= list[k].generation)
            && (h == g || exists k :: 0 <= k < |list| && list[k].id == id && list[k].generation == h)
  {
    if list != [] {
      var n := |list| - 1;
      ListLatches(m, list[..n], id);
      assert forall k :: 0 <= k < n ==> list[..n][k] == list[k];
    }
  }

  class SessionMirror {
    var sessions: map<Id, SessionInfo>
    var latestGeneration: map<Id, nat>

    function State(): Mirror
      reads this
    {
      Mirror(sessions, latestGeneration)
    }

    constructor ()
      ensures State() == EMPTY
    {
      sessions, latestGeneration := map[], map[];
    }

    method SeedGeneration(session: SessionInfo)
      modifies this`latestGeneration
      ensures State() == Observe(old(State()), session.id, session.generation)
    {
      var prev := if session.id in latestGeneration then latestGeneration[session.id] else 0;
      if session.generation > prev {
        latestGeneration := latestGeneration[session.id := session.generation];
      }
    }

    /** The verdict is about the latch before this chunk. */
    method RecordDataGeneration(id: Id, generation: nat) returns (stale: bool)
      modifies this`latestGeneration
      ensures State() == Observe(old(State()), id, generation)
      ensures stale == (generation < GenerationOf(old(State()), id))
    {
      var prev := if id in latestGeneration then latestGeneration[id] else 0;
      if generation > prev {
        latestGeneration := latestGeneration[id := generation];
      }
      return generation < prev;
    }

    method UpsertSession(session: SessionInfo)
      modifies this
      ensures State() == Upsert(old(State()), session)
    {
      sessions := sessions[session.id := session];
      SeedGeneration(session);
    }

    /** `replace`: an optimistic patch leaves the latch alone. */
    method Patch(session: SessionInfo)
      modifies this`sessions
      ensures State() == Step(old(State()), Patched(session))
    {
      sessions := sessions[session.id := session];
    }

    /** `applyList`. */
    method ReplaceAll(list: seq<SessionInfo>)
      modifies this
      ensures State() == ApplyList(old(State()), list)
    {
      ghost var was := State();
      sessions := map[];
      assert list[..0] == [];
      for i := 0 to |list|
        invariant State() == UpsertAll(was.(sessions := map[]), list[..i])
      {
        assert list[..i + 1][..i] == list[..i];
        sessions := sessions[list[i].id := list[i]];
        SeedGeneration(list[i]);
      }
      assert list[..|list|] == list;
    }

    method MarkExited(id: Id)
      modifies this`sessions
      ensures State() == ApplyExit(old(State()), id)
    {
      if id in sessions {
        sessions := sessions[id := sessions[id].(ended := true)];
      }
    }

    method RemoveSession(id: Id)
      modifies this
      ensures State() == Remove(old(State()), id)
    {
      sessions := sessions - {id};
      latestGeneration := latestGeneration - {id};
    }

    method Clear()
      modifies this
      ensures State() == EMPTY
    {
      sessions, latestGeneration := map[], map[];
    }
  }
}
