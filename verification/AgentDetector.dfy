/** The agent detector: per session a state with a source, weaker sources never override stronger
    ones, and an idle timer for states that came from output. Whether a chunk of output matched a
    pattern, and whether it had any text, are inputs. */
module AgentDetector {
  import opened Wrappers

  type Id = nat
  type TimerId = nat

  datatype Lifecycle = Running | Waiting | Completed | Idle | Unknown

  datatype Source = Activity | Output | Notify | Hook

  datatype Confidence = Low | Medium | High

  datatype Observation = Observation(lifecycle: Lifecycle, source: Source, confidence: Confidence)

  datatype AgentState = AgentState(sessionId: Id, seen: Observation, detectedAt: int)

  const IDLE_OUTPUT := Observation(Idle, Output, Medium)

  function Priority(s: Source): nat {
    match s case Activity => 0 case Output => 1 case Notify => 2 case Hook => 3
  }

  predicate IsWeaker(incoming: Source, current: Source) {
    Priority(incoming) < Priority(current)
  }

  datatype Timer = Timer(session: Id, due: int)

  /** `idleTimers` is the detector's map; `armed` is what the event loop still has to fire. */
  datatype Detector = Detector(states: map<Id, AgentState>, idleTimers: map<Id, TimerId>, armed: map<TimerId, Timer>,
                               nextTimer: TimerId)

  // ---------------------------------------------------------------- the steps

  function ApplyObservation(d: Detector, id: Id, o: Observation, now: int): Detector {
    if id in d.states && IsWeaker(o.source, d.states[id].seen.source) then d
    else if id in d.states && d.states[id].seen == o then d
    else d.(states := d.states[id := AgentState(id, o, now)])
  }

  function ClearIdleTimer(d: Detector, id: Id): Detector {
    if id in d.idleTimers then d.(armed := d.armed - {d.idleTimers[id]}, idleTimers := d.idleTimers - {id}) else d
  }

  function Max(a: int, b: int): int { if a >= b then a else b }

  function ScheduleOutputIdle(d: Detector, id: Id, detectedAt: int, timeout: nat, now: int): Detector {
    d.(idleTimers := d.idleTimers[id := d.nextTimer],
       armed := d.armed[d.nextTimer := Timer(id, now + Max(0, detectedAt + timeout - now))],
       nextTimer := d.nextTimer + 1)
  }

  predicate OutputActive(s: AgentState) {
    s.seen.source == Output && s.seen.lifecycle != Idle
  }

  /** `feed`: the lifecycle a pattern matched, if any, and whether there was text at all. */
  function Feed(d: Detector, id: Id, matched: Option<Lifecycle>, hasText: bool, observeOutput: bool, timeout: nat,
                now: int): Detector {
    if !observeOutput then
      var e := ClearIdleTimer(d, id);
      if id in d.states && OutputActive(d.states[id]) then ApplyObservation(e, id, IDLE_OUTPUT, now) else e
    else if matched.None? && !hasText then d
    else
      var e := ClearIdleTimer(d, id);
      if id in d.states && IsWeaker(Output, d.states[id].seen.source) then e
      else
        var o := Observation(if matched.Some? then matched.value else Running, Output, Medium);
        ScheduleOutputIdle(ApplyObservation(e, id, o, now), id, now, timeout, now)
  }

  function SetExternal(d: Detector, id: Id, o: Observation, now: int): Detector {
    ApplyObservation(ClearIdleTimer(d, id), id, o, now)
  }

  function RemoveSession(d: Detector, id: Id): Detector {
    ClearIdleTimer(d.(states := d.states - {id}), id)
  }

  /** An armed timer fires; the detector keeps its handle, which by then does nothing. */
  function Fire(d: Detector, t: TimerId, now: int): Detector {
    if t !in d.armed then d else ApplyObservation(d.(armed := d.armed - {t}), d.armed[t].session, IDLE_OUTPUT, now)
  }

  function Restored(s: AgentState, timeout: nat, now: int): AgentState {
    if OutputActive(s) && s.detectedAt + timeout <= now then AgentState(s.sessionId, IDLE_OUTPUT, now) else s
  }

  function RestoreOne(d: Detector, s: AgentState, timeout: nat, now: int): Detector {
    var r := Restored(s, timeout, now);
    var e := d.(states := d.states[r.sessionId := r]);
    if OutputActive(r) then ScheduleOutputIdle(e, r.sessionId, r.detectedAt, timeout, now) else e
  }

  function Cleared(d: Detector): Detector {
    Detector(map[], map[], map t | t in d.armed && t !in d.idleTimers.Values :: d.armed[t], d.nextTimer)
  }

  function Restore(d: Detector, saved: seq<AgentState>, timeout: nat, now: int): Detector {
    if saved == [] then Cleared(d)
    else
      var n := |saved| - 1;
      RestoreOne(Restore(d, saved[..n], timeout, now), saved[n], timeout, now)
  }

  // ---------------------------------------------------------------- invariants

  /** Every armed timer is the one its session's handle names: at most one per session. */
  predicate TimersInv(d: Detector) {
    && (forall t :: t in d.armed ==> d.armed[t].session in d.idleTimers && d.idleTimers[d.armed[t].session] == t)
    && (forall t :: t in d.armed ==> t < d.nextTimer)
    && (forall id :: id in d.idleTimers ==> d.idleTimers[id] < d.nextTimer)
    && (forall id, jd :: id in d.idleTimers && jd in d.idleTimers && d.idleTimers[id] == d.idleTimers[jd] ==> id == jd)
    && (forall id :: id in d.states ==> d.states[id].sessionId == id)
  }

  predicate Armed(d: Detector, id: Id) {
    id in d.idleTimers && d.idleTimers[id] in d.armed && d.armed[d.idleTimers[id]].session == id
  }

  /** Every state that output left active is watched by an armed timer. */
  predicate WatchedInv(d: Detector) {
    forall id :: id in d.states && OutputActive(d.states[id]) ==> Armed(d, id)
  }

  predicate Inv(d: Detector) {
    TimersInv(d) && WatchedInv(d)
  }

  datatype Event =
    | Fed(id: Id, matched: Option<Lifecycle>, hasText: bool, observeOutput: bool)
    | External(id: Id, o: Observation)
    | Removed(id: Id)
    | Fired(t: TimerId)
    | Reloaded(saved: seq<AgentState>)

  function Step(d: Detector, e: Event, timeout: nat, now: int): Detector {
    match e
    case Fed(id, matched, hasText, observeOutput) => Feed(d, id, matched, hasText, observeOutput, timeout, now)
    case External(id, o) => SetExternal(d, id, o, now)
    case Removed(id) => RemoveSession(d, id)
    case Fired(t) => Fire(d, t, now)
    case Reloaded(saved) => Restore(d, saved, timeout, now)
  }

  function Run(d: Detector, es: seq<(Event, int)>, timeout: nat): Detector
    decreases |es|
  {
    if es == [] then d else Run(Step(d, es[0].0, timeout, es[0].1), es[1..], timeout)
  }

  /** External reports come from hooks and `notify`; a saved map has one state per session. */
  predicate Ordinary(e: Event) {
    && (e.External? ==> e.o.source == Notify || e.o.source == Hook)
    && (e.Reloaded? ==> forall i, j :: 0 <= i < j < |e.saved| ==> e.saved[i].sessionId != e.saved[j].sessionId)
  }

  lemma ClearKeeps(d: Detector, id: Id)
    requires TimersInv(d)
    ensures TimersInv(ClearIdleTimer(d, id)) && ClearIdleTimer(d, id).states == d.states
    ensures forall jd :: jd != id && Armed(d, jd) ==> Armed(ClearIdleTimer(d, id), jd)
  {
  }

  lemma ObserveKeeps(d: Detector, id: Id, o: Observation, now: int)
    requires TimersInv(d)
    ensures var e := ApplyObservation(d, id, o, now);
            && TimersInv(e) && e.idleTimers == d.idleTimers && e.armed == d.armed
            && (forall jd :: jd != id && jd in e.states ==> jd in d.states && e.states[jd] == d.states[jd])
  {
  }

  lemma ScheduleKeeps(d: Detector, id: Id, detectedAt: int, timeout: nat, now: int)
    requires TimersInv(d) && !Armed(d, id)
    ensures var e := ScheduleOutputIdle(d, id, detectedAt, timeout, now);
            && TimersInv(e) && Armed(e, id) && e.states == d.states
            && (forall jd :: jd != id && Armed(d, jd) ==> Armed(e, jd))
  {
    ScheduleKeepsTimers(d, id, detectedAt, timeout, now);
    ScheduleArms(d, id, detectedAt, timeout, now);
    hide *;
  }

  lemma ScheduleKeepsTimers(d: Detector, id: Id, detectedAt: int, timeout: nat, now: int)
    requires TimersInv(d) && !Armed(d, id)
    ensures TimersInv(ScheduleOutputIdle(d, id, detectedAt, timeout, now))
  {
    hide Max;
  }

  lemma ScheduleArms(d: Detector, id: Id, detectedAt: int, timeout: nat, now: int)
    requires TimersInv(d)
    ensures var e := ScheduleOutputIdle(d, id, detectedAt, timeout, now);
            && Armed(e, id) && e.states == d.states
            && (forall jd :: jd != id && Armed(d, jd) ==> Armed(e, jd))
  {
    hide Max;
  }

  lemma ClearDisarms(d: Detector, id: Id)
    ensures !Armed(ClearIdleTimer(d, id), id)
  {
  }

  lemma FeedKeeps(d: Detector, id: Id, matched: Option<Lifecycle>, hasText: bool, observeOutput: bool, timeout: nat, now: int)
    requires Inv(d)
    ensures Inv(Feed(d, id, matched, hasText, observeOutput, timeout, now))
  {
    hide TimersInv, Armed, ClearIdleTimer, ScheduleOutputIdle;
    ClearKeeps(d, id);
    ClearDisarms(d, id);
    var e := ClearIdleTimer(d, id);
    ObserveKeeps(e, id, IDLE_OUTPUT, now);
    var o := Observation(if matched.Some? then matched.value else Running, Output, Medium);
    ObserveKeeps(e, id, o, now);
    var f := ApplyObservation(e, id, o, now);
    assert !Armed(f, id) by { SameTimersSameArmed(e, f, id); }
    ScheduleKeeps(f, id, now, timeout, now);
    forall jd | Armed(e, jd) ensures Armed(f, jd) && Armed(ApplyObservation(e, id, IDLE_OUTPUT, now), jd) {
      SameTimersSameArmed(e, f, jd);
      SameTimersSameArmed(e, ApplyObservation(e, id, IDLE_OUTPUT, now), jd);
    }
  }

  lemma SameTimersSameArmed(d: Detector, e: Detector, id: Id)
    requires d.idleTimers == e.idleTimers && d.armed == e.armed
    ensures Armed(d, id) <==> Armed(e, id)
  {
  }

  lemma FireKeeps(d: Detector, t: TimerId, now: int)
    requires Inv(d)
    ensures Inv(Fire(d, t, now))
  {
  }

  lemma SetExternalKeepsTimers(d: Detector, id: Id, o: Observation, now: int)
    requires TimersInv(d)
    ensures TimersInv(SetExternal(d, id, o, now))
  {
    ClearKeeps(d, id);
    ObserveKeeps(ClearIdleTimer(d, id), id, o, now);
    hide TimersInv;
  }

  lemma RemoveKeeps(d: Detector, id: Id)
    requires Inv(d)
    ensures Inv(RemoveSession(d, id))
  {
  }

  // ---------------------------------------------------------------- reloading

  /** This saved state comes back active, with a timer of its own. */
  predicate Rearms(s: AgentState, timeout: nat, now: int) {
    OutputActive(Restored(s, timeout, now))
  }

  /** No session is saved twice with states that both come back active. */
  predicate RearmsOnce(saved: seq<AgentState>, timeout: nat, now: int) {
    forall i, j :: 0 <= i < j < |saved| && saved[i].sessionId == saved[j].sessionId ==>
      !(Rearms(saved[i], timeout, now) && Rearms(saved[j], timeout, now))
  }

  predicate Named(d: Detector) {
    forall t :: t in d.armed ==> d.armed[t].session in d.idleTimers && d.idleTimers[d.armed[t].session] == t
  }

  /** What a reload keeps whatever was saved: every handle names an armed timer of its session. */
  predicate Sane(d: Detector) {
    && (forall t :: t in d.armed ==> t < d.nextTimer)
    && (forall id :: id in d.idleTimers ==> d.idleTimers[id] < d.nextTimer && Armed(d, id))
    && (forall id :: id in d.states ==> d.states[id].sessionId == id)
  }

  lemma SaneTimers(d: Detector)
    requires Sane(d)
    ensures TimersInv(d) <==> Named(d)
  {
  }

  lemma RestoreOneStep(d: Detector, s: AgentState, timeout: nat, now: int)
    requires Sane(d) && WatchedInv(d)
    ensures var e := RestoreOne(d, s, timeout, now);
            && Sane(e) && WatchedInv(e)
            && e.idleTimers.Keys == d.idleTimers.Keys + (if Rearms(s, timeout, now) then {s.sessionId} else {})
            && (Named(e) <==> Named(d) && !(Rearms(s, timeout, now) && s.sessionId in d.idleTimers))
  {
    hide Max;
    var e := RestoreOne(d, s, timeout, now);
    if Rearms(s, timeout, now) {
      assert e.armed.Keys == d.armed.Keys + {d.nextTimer};
      if s.sessionId in d.idleTimers {
        assert d.idleTimers[s.sessionId] in e.armed;
        assert !Named(e);
      }
    }
  }

  /** The sessions that have a handle are those of the states that came back active. */
  ghost predicate HandlesAre(d: Detector, saved: seq<AgentState>, timeout: nat, now: int) {
    forall id :: id in d.idleTimers <==>
      exists i :: 0 <= i < |saved| && saved[i].sessionId == id && Rearms(saved[i], timeout, now)
  }

  lemma HandlesGrow(d: Detector, e: Detector, saved: seq<AgentState>, timeout: nat, now: int)
    requires saved != [] && HandlesAre(d, saved[..|saved| - 1], timeout, now)
    requires var s := saved[|saved| - 1];
             e.idleTimers.Keys == d.idleTimers.Keys + (if Rearms(s, timeout, now) then {s.sessionId} else {})
    ensures HandlesAre(e, saved, timeout, now)
    ensures var s := saved[|saved| - 1];
            RearmsOnce(saved, timeout, now) <==>
              RearmsOnce(saved[..|saved| - 1], timeout, now) && !(Rearms(s, timeout, now) && s.sessionId in d.idleTimers)
  {
    hide Rearms;
    var n := |saved| - 1;
    var before := saved[..n];
    assert forall i :: 0 <= i < n ==> before[i] == saved[i];
  }

  lemma {:induction false} RestoreSteps(d: Detector, saved: seq<AgentState>, timeout: nat, now: int)
    requires TimersInv(d)
    ensures var e := Restore(d, saved, timeout, now);
            && Sane(e) && WatchedInv(e) && HandlesAre(e, saved, timeout, now)
            && (Named(e) <==> RearmsOnce(saved, timeout, now))
    decreases |saved|
  {
    if saved == [] {
      assert Cleared(d).armed == map[];
    } else {
      var n := |saved| - 1;
      hide TimersInv, Sane, WatchedInv, HandlesAre, Named, RearmsOnce, RestoreOne, Rearms;
      RestoreSteps(d, saved[..n], timeout, now);
      RestoreOneStep(Restore(d, saved[..n], timeout, now), saved[n], timeout, now);
      HandlesGrow(Restore(d, saved[..n], timeout, now), Restore(d, saved, timeout, now), saved, timeout, now);
    }
  }

  /** A reload restores the invariant exactly if no session is saved twice with states that both come
      back active; the second would leave the first one's timer armed with nothing to clear it. */
  lemma RestoreKeepsIff(d: Detector, saved: seq<AgentState>, timeout: nat, now: int)
    requires TimersInv(d)
    ensures Inv(Restore(d, saved, timeout, now)) <==> RearmsOnce(saved, timeout, now)
  {
    RestoreSteps(d, saved, timeout, now);
    SaneTimers(Restore(d, saved, timeout, now));
    hide Restore, RearmsOnce, WatchedInv, Named, TimersInv, Sane;
  }

  // ---------------------------------------------------------------- every step, every run

  /** When an external report keeps every active output state watched: exactly when it is not a
      report from output that output could have made itself, and not a weaker report that takes the
      timer away and is then ignored. */
  lemma ExternalKeepsWatchIff(d: Detector, id: Id, o: Observation, now: int)
    requires Inv(d)
    ensures WatchedInv(SetExternal(d, id, o, now)) <==>
            if id in d.states && IsWeaker(o.source, d.states[id].seen.source) then !OutputActive(d.states[id])
            else !(o.source == Output && o.lifecycle != Idle)
  {
    hide TimersInv;
    ClearKeeps(d, id);
    ClearDisarms(d, id);
    var c := ClearIdleTimer(d, id);
    var e := SetExternal(d, id, o, now);
    ObserveKeeps(c, id, o, now);
    forall jd ensures Armed(c, jd) <==> Armed(e, jd) {
      SameTimersSameArmed(c, e, jd);
    }
    hide ClearIdleTimer, Armed;
    if id in e.states && OutputActive(e.states[id]) {
      assert !WatchedInv(e);
    }
  }

  /** The steps that keep the invariant. */
  predicate Keeps(d: Detector, e: Event, timeout: nat, now: int) {
    match e
    case External(id, o) =>
      if id in d.states && IsWeaker(o.source, d.states[id].seen.source) then !OutputActive(d.states[id])
      else !(o.source == Output && o.lifecycle != Idle)
    case Reloaded(saved) => RearmsOnce(saved, timeout, now)
    case _ => true
  }

  /** A step keeps the invariant exactly under these conditions. */
  lemma StepKeepsInvIff(d: Detector, e: Event, timeout: nat, now: int)
    requires Inv(d)
    ensures Inv(Step(d, e, timeout, now)) <==> Keeps(d, e, timeout, now)
  {
    hide TimersInv, WatchedInv, RearmsOnce, Feed, SetExternal, RemoveSession, Fire, Restore;
    match e
    case Fed(id, matched, hasText, observeOutput) =>
      FeedKeeps(d, id, matched, hasText, observeOutput, timeout, now);
    case External(id, o) =>
      SetExternalKeepsTimers(d, id, o, now);
      ExternalKeepsWatchIff(d, id, o, now);
    case Removed(id) => RemoveKeeps(d, id);
    case Fired(t) => FireKeeps(d, t, now);
    case Reloaded(saved) => RestoreKeepsIff(d, saved, timeout, now);
  }

  lemma OrdinaryKeeps(d: Detector, e: Event, timeout: nat, now: int)
    requires Ordinary(e)
    ensures Keeps(d, e, timeout, now)
  {
  }

  const NEW := Detector(map[], map[], map[], 0)

  /** The first condition is needed, from a new detector on: a report of mere activity after output takes
      the timer of the active state away and is then ignored. */
  lemma WeakReportUnwatches(timeout: nat)
    ensures var fed := Run(NEW, [(Fed(1, None, true, true), 0)], timeout);
            var e := External(1, Observation(Idle, Activity, Low));
            Inv(fed) && 1 in fed.states && OutputActive(fed.states[1]) && !WatchedInv(Step(fed, e, timeout, 1))
  {
    var feed := Fed(1, None, true, true);
    OneStep(NEW, feed, 0, timeout);
    FeedKeeps(NEW, 1, None, true, true, timeout, 0);
    var fed := Step(NEW, feed, timeout, 0);
    assert fed.states == map[1 := AgentState(1, Observation(Running, Output, Medium), 0)];
    hide Feed, WatchedInv, TimersInv, SetExternal, Run;
    ExternalKeepsWatchIff(fed, 1, Observation(Idle, Activity, Low), 1);
  }

  /** So is the second: a saved map that repeats an active session leaves two timers armed for it. */
  lemma RepeatedSessionArmsTwice(timeout: nat)
    requires timeout > 0
    ensures var s := AgentState(1, Observation(Running, Output, Medium), 0);
            !TimersInv(Run(NEW, [(Reloaded([s, s]), 0)], timeout))
  {
    var s := AgentState(1, Observation(Running, Output, Medium), 0);
    var saved := [s, s];
    OneStep(NEW, Reloaded(saved), 0, timeout);
    assert saved[0] == saved[1] && Rearms(s, timeout, 0);
    assert !RearmsOnce(saved, timeout, 0);
    assert TimersInv(NEW);
    hide Restore, WatchedInv, TimersInv, Named, Sane, Run, RearmsOnce, Rearms;
    RestoreSteps(NEW, saved, timeout, 0);
    SaneTimers(Restore(NEW, saved, timeout, 0));
  }

  lemma OneStep(d: Detector, e: Event, now: int, timeout: nat)
    ensures Run(d, [(e, now)], timeout) == Step(d, e, timeout, now)
  {
    hide Step;
    assert [(e, now)][1..] == [];
  }

  /** Main result: over every run at most one idle timer is armed per session, and every state that
      output left active has one. */
  lemma {:induction false} RunKeepsInv(d: Detector, es: seq<(Event, int)>, timeout: nat)
    requires Inv(d) && forall i :: 0 <= i < |es| ==> Ordinary(es[i].0)
    ensures Inv(Run(d, es, timeout))
    decreases |es|
  {
    hide Inv, Step, Ordinary, Keeps;
    if es != [] {
      OrdinaryKeeps(d, es[0].0, timeout, es[0].1);
      StepKeepsInvIff(d, es[0].0, timeout, es[0].1);
      forall i | 0 <= i < |es[1..]| ensures Ordinary(es[1..][i].0) {
        assert es[1..][i] == es[i + 1];
      }
      RunKeepsInv(Step(d, es[0].0, timeout, es[0].1), es[1..], timeout);
    }
  }

  /** Firing the timer that watches an active output state leaves that session idle, and nothing
      armed for it. */
  lemma FiringLeavesIdle(d: Detector, id: Id, now: int)
    requires Inv(d) && id in d.states && OutputActive(d.states[id])
    ensures var e := Fire(d, d.idleTimers[id], now);
            && e.states[id] == AgentState(id, IDLE_OUTPUT, now) && !Armed(e, id)
            && forall t :: t in e.armed ==> e.armed[t].session != id
  {
  }

  /** Between removals and reloads the source of a session's state never weakens. */
  lemma StepNeverWeakens(d: Detector, e: Event, timeout: nat, now: int, id: Id)
    requires id in d.states && !e.Reloaded? && e != Removed(id)
    ensures id in Step(d, e, timeout, now).states
    ensures Priority(Step(d, e, timeout, now).states[id].seen.source) >= Priority(d.states[id].seen.source)
  {
  }

  lemma {:induction false} SourceNeverWeakens(d: Detector, es: seq<(Event, int)>, timeout: nat, id: Id)
    requires id in d.states
    requires forall i :: 0 <= i < |es| ==> !es[i].0.Reloaded? && es[i].0 != Removed(id)
    ensures id in Run(d, es, timeout).states
    ensures Priority(Run(d, es, timeout).states[id].seen.source) >= Priority(d.states[id].seen.source)
    decreases |es|
  {
    hide Step;
    if es != [] {
      StepNeverWeakens(d, es[0].0, timeout, es[0].1, id);
      forall i | 0 <= i < |es[1..]| ensures !es[1..][i].0.Reloaded? && es[1..][i].0 != Removed(id) {
        assert es[1..][i] == es[i + 1];
      }
      SourceNeverWeakens(Step(d, es[0].0, timeout, es[0].1), es[1..], timeout, id);
    }
  }

  // ---------------------------------------------------------------- what a report does

  /** Hooks count for more than `notify`, that for more than output, and that for more than activity. */
  predicate Yields(incoming: Source, current: Source) {
    match incoming
    case Activity => current != Activity
    case Output => current == Notify || current == Hook
    case Notify => current == Hook
    case Hook => false
  }

  /** Session `id` has been seen as `o` by now; an observation that says nothing new keeps its time. */
  predicate SeenAs(d: Detector, e: Detector, id: Id, o: Observation, now: int) {
    e.states == d.states[id := if id in d.states && d.states[id].seen == o then d.states[id] else AgentState(id, o, now)]
  }

  /** The session has no timer any more; the others have the ones they had. */
  predicate TimerGone(d: Detector, e: Detector, id: Id) {
    && e.idleTimers == d.idleTimers - {id} && e.nextTimer == d.nextTimer
    && e.armed == d.armed - (if id in d.idleTimers then {d.idleTimers[id]} else {})
  }

  /** A report is stored exactly if no stronger source has spoken; the timer goes in any case. */
  lemma ReportIsStored(d: Detector, id: Id, o: Observation, now: int)
    ensures var e := Step(d, External(id, o), 0, now);
            && TimerGone(d, e, id)
            && (if id in d.states && Yields(o.source, d.states[id].seen.source) then e.states == d.states
                else SeenAs(d, e, id, o, now))
  {
    if id in d.states {
      assert d.states[id := d.states[id]] == d.states;
    }
    assert id !in d.idleTimers ==> d.idleTimers - {id} == d.idleTimers && d.armed - {} == d.armed;
  }

  /** Output with a lifecycle, or with any text, is stored as medium-confidence output unless `notify` or a
      hook has spoken, and is then watched for the whole timeout; text without a lifecycle means
      running. Output without either changes nothing. Output that is not to be observed ends what
      output had made active. */
  lemma OutputIsStored(d: Detector, id: Id, matched: Option<Lifecycle>, hasText: bool, timeout: nat, now: int)
    ensures var e := Step(d, Fed(id, matched, hasText, true), timeout, now);
            && (matched.None? && !hasText ==> e == d)
            && (matched.Some? || hasText ==>
                  if id in d.states && (d.states[id].seen.source == Notify || d.states[id].seen.source == Hook) then
                    e.states == d.states && TimerGone(d, e, id)
                  else
                    && SeenAs(d, e, id, Observation(if matched.Some? then matched.value else Running, Output, Medium), now)
                    && id in e.idleTimers && e.idleTimers[id] in e.armed
                    && e.armed[e.idleTimers[id]] == Timer(id, now + timeout))
    ensures var e := Step(d, Fed(id, matched, hasText, false), timeout, now);
            && TimerGone(d, e, id)
            && (if id in d.states && d.states[id].seen.source == Output && d.states[id].seen.lifecycle != Idle
                then e.states == d.states[id := AgentState(id, Observation(Idle, Output, Medium), now)]
                else e.states == d.states)
  {
    if id in d.states {
      assert d.states[id := d.states[id]] == d.states;
    }
    assert id !in d.idleTimers ==> d.idleTimers - {id} == d.idleTimers && d.armed - {} == d.armed;
  }

  /** A session that is removed leaves neither state nor timer. A timer that fires makes its session idle,
      unless `notify` or a hook has spoken. */
  lemma RemovalAndFiring(d: Detector, id: Id, t: TimerId, now: int)
    ensures var e := Step(d, Removed(id), 0, now); e.states == d.states - {id} && TimerGone(d, e, id)
    ensures t !in d.armed ==> Step(d, Fired(t), 0, now) == d
    ensures t in d.armed ==>
              var e, jd := Step(d, Fired(t), 0, now), d.armed[t].session;
              && e.armed == d.armed - {t} && e.idleTimers == d.idleTimers
              && (if jd in d.states && (d.states[jd].seen.source == Notify || d.states[jd].seen.source == Hook)
                  then e.states == d.states else SeenAs(d, e, jd, Observation(Idle, Output, Medium), now))
  {
    assert id !in d.idleTimers ==> d.idleTimers - {id} == d.idleTimers && d.armed - {} == d.armed;
    if t in d.armed && d.armed[t].session in d.states {
      assert d.states[d.armed[t].session := d.states[d.armed[t].session]] == d.states;
    }
  }

  /** Entry `k` is the last that the saved map has for its session. */
  predicate LastOf(saved: seq<AgentState>, k: nat) {
    k < |saved| && forall i :: k < i < |saved| ==> saved[i].sessionId != saved[k].sessionId
  }

  /** A reload knows exactly the saved sessions, each as its last entry says; what output had made active
      is idle if its time is over, and otherwise watched for what is left of it. */
  lemma {:induction false} ReloadKnows(d: Detector, saved: seq<AgentState>, timeout: nat, now: int, k: nat)
    requires LastOf(saved, k)
    ensures var e, s := Step(d, Reloaded(saved), timeout, now), saved[k];
            var active := s.seen.source == Output && s.seen.lifecycle != Idle;
            && s.sessionId in e.states
            && e.states[s.sessionId] ==
                 (if active && s.detectedAt + timeout <= now
                  then AgentState(s.sessionId, Observation(Idle, Output, Medium), now) else s)
            && (active && s.detectedAt + timeout > now ==>
                  && s.sessionId in e.idleTimers && e.idleTimers[s.sessionId] in e.armed
                  && e.armed[e.idleTimers[s.sessionId]] == Timer(s.sessionId, s.detectedAt + timeout))
    decreases |saved|
  {
    var n := |saved| - 1;
    var before := Restore(d, saved[..n], timeout, now);
    if k < n {
      assert LastOf(saved[..n], k);
      ReloadKnows(d, saved[..n], timeout, now, k);
      RestoredHandles(d, saved[..n], timeout, now);
    }
    hide Restore;
    OneMoreRestored(d, saved, timeout, now);
  }

  lemma OneMoreRestored(d: Detector, saved: seq<AgentState>, timeout: nat, now: int)
    requires saved != []
    ensures Restore(d, saved, timeout, now) ==
              RestoreOne(Restore(d, saved[..|saved| - 1], timeout, now), saved[|saved| - 1], timeout, now)
  {
  }

  predicate HandlesBelow(d: Detector) {
    forall id :: id in d.idleTimers ==> d.idleTimers[id] < d.nextTimer
  }

  lemma {:induction false} RestoredHandles(d: Detector, saved: seq<AgentState>, timeout: nat, now: int)
    ensures HandlesBelow(Restore(d, saved, timeout, now))
    decreases |saved|
  {
    if saved != [] {
      var n := |saved| - 1;
      RestoredHandles(d, saved[..n], timeout, now);
      RestoreOneHandles(Restore(d, saved[..n], timeout, now), saved[n], timeout, now);
      hide HandlesBelow, RestoreOne;
    }
  }

  lemma RestoreOneHandles(d: Detector, s: AgentState, timeout: nat, now: int)
    requires HandlesBelow(d)
    ensures HandlesBelow(RestoreOne(d, s, timeout, now))
  {
    hide Max, OutputActive;
  }

  lemma {:induction false} ReloadKnowsNoOther(d: Detector, saved: seq<AgentState>, timeout: nat, now: int, id: Id)
    requires forall i :: 0 <= i < |saved| ==> saved[i].sessionId != id
    ensures var e := Step(d, Reloaded(saved), timeout, now); id !in e.states && id !in e.idleTimers
    decreases |saved|
  {
    if saved != [] {
      ReloadKnowsNoOther(d, saved[..|saved| - 1], timeout, now, id);
    }
  }

  // ---------------------------------------------------------------- the detector

  class AgentDetector {
    const idleTimeoutMs: nat
    var states: map<Id, AgentState>
    var idleTimers: map<Id, TimerId>
    /** The event loop's pending timers. */
    var armed: map<TimerId, Timer>
    var nextTimer: TimerId

    function State(): Detector
      reads this
    {
      Detector(states, idleTimers, armed, nextTimer)
    }

    constructor (idleTimeoutMs: nat)
      ensures this.idleTimeoutMs == idleTimeoutMs && State() == Detector(map[], map[], map[], 0) && Inv(State())
    {
      this.idleTimeoutMs := idleTimeoutMs;
      states, idleTimers, armed, nextTimer := map[], map[], map[], 0;
    }

    method ClearTimer(id: Id)
      modifies this`idleTimers, this`armed
      ensures State() == ClearIdleTimer(old(State()), id)
    {
      if id in idleTimers {
        armed := armed - {idleTimers[id]};
        idleTimers := idleTimers - {id};
      }
    }

    method Schedule(id: Id, detectedAt: int, now: int)
      modifies this`idleTimers, this`armed, this`nextTimer
      ensures State() == ScheduleOutputIdle(old(State()), id, detectedAt, idleTimeoutMs, now)
    {
      var delay := Max(0, detectedAt + idleTimeoutMs - now);
      armed := armed[nextTimer := Timer(id, now + delay)];
      idleTimers := idleTimers[id := nextTimer];
      nextTimer := nextTimer + 1;
    }

    method Apply(id: Id, observation: Observation, now: int)
      modifies this`states
      ensures State() == ApplyObservation(old(State()), id, observation, now)
    {
      if id in states {
        if IsWeaker(observation.source, states[id].seen.source) {
          return;
        }
        if states[id].seen == observation {
          return;
        }
      }
      states := states[id := AgentState(id, observation, now)];
    }

    method FeedOutput(id: Id, matched: Option<Lifecycle>, hasText: bool, observeOutput: bool, now: int)
      modifies this
      ensures State() == Feed(old(State()), id, matched, hasText, observeOutput, idleTimeoutMs, now)
    {
      var hasCurrent := id in states;
      var current := if hasCurrent then Some(states[id].seen) else None;
      if !observeOutput {
        ClearTimer(id);
        if hasCurrent && current.value.source == Output && current.value.lifecycle != Idle {
          Apply(id, IDLE_OUTPUT, now);
        }
        return;
      }
      if matched.None? && !hasText {
        return;
      }
      ClearTimer(id);
      var observed := if matched.Some? then matched.value else Running;
      if hasCurrent && IsWeaker(Output, current.value.source) {
        return;
      }
      Apply(id, Observation(observed, Output, Medium), now);
      Schedule(id, now, now);
    }

    method SetExternalState(id: Id, observation: Observation, now: int)
      modifies this
      ensures State() == SetExternal(old(State()), id, observation, now)
    {
      ClearTimer(id);
      Apply(id, observation, now);
    }

    method Remove(id: Id)
      modifies this
      ensures State() == RemoveSession(old(State()), id)
    {
      states := states - {id};
      ClearTimer(id);
    }

    method OnTimer(t: TimerId, now: int)
      requires t in armed
      modifies this
      ensures State() == Fire(old(State()), t, now)
    {
      var id := armed[t].session;
      armed := armed - {t};
      Apply(id, IDLE_OUTPUT, now);
    }

    method RestoreStates(saved: seq<AgentState>, now: int)
      modifies this
      ensures State() == Restore(old(State()), saved, idleTimeoutMs, now)
    {
      ghost var was := State();
      armed := map t | t in armed && t !in idleTimers.Values :: armed[t];
      idleTimers := map[];
      states := map[];
      assert saved[..0] == [];
      for i := 0 to |saved|
        invariant State() == Restore(was, saved[..i], idleTimeoutMs, now)
      {
        assert saved[..i + 1][..i] == saved[..i];
        var state := saved[i];
        var restored := state;
        if state.seen.source == Output && state.seen.lifecycle != Idle {
          if state.detectedAt + idleTimeoutMs <= now {
            restored := AgentState(state.sessionId, IDLE_OUTPUT, now);
          }
        }
        states := states[restored.sessionId := restored];
        if restored.seen.source == Output && restored.seen.lifecycle != Idle {
          Schedule(restored.sessionId, restored.detectedAt, now);
        }
      }
      assert saved[..|saved|] == saved;
    }
  }
}
