/** The progression engine as transitions on values: the whole tracker state
    (the record the application persists), the invariant every reachable
    state keeps, and the two operations, toggle and mark-missed. */
module Progression {
  import opened Blueprint
  import opened DayStore

  datatype Option<T> = None | Some(value: T)

  /** Day records keyed by day id, the current-day pointer and the streak. */
  datatype Progress = Progress(daysState: map<int, DayState>, currentDayId: int, streak: int)

  function Min(a: int, b: int): (m: int)
  {
    if a < b then a else b
  }

  function Max(a: int, b: int): (m: int)
  {
    if a < b then b else a
  }

  /** A day record is shaped by the blueprint, and it is marked complete only
      when all its tasks are checked. (It may be incomplete with all tasks
      checked: mark-missed clears the flag and leaves the tasks alone.) */
  ghost predicate DayConsistent(bp: seq<Section>, day: DayState)
  {
    Shaped(bp, day.sections) && (day.completed ==> AllDone(bp, day.sections))
  }

  /** The invariant of every state reachable from the first-run state over
      a horizon of days. Days the pointer has not yet reached have never been
      marked missed, so their flag is exactly the completion predicate; this
      needs a blueprint with some task, since with none the fresh,
      incomplete days are already all done. */
  ghost predicate Consistent(bp: seq<Section>, horizon: int, p: Progress)
  {
    && 1 <= p.currentDayId <= horizon
    && p.streak >= 0
    && (forall d :: d in p.daysState <==> 1 <= d <= horizon)
    && (forall d :: d in p.daysState ==> DayConsistent(bp, p.daysState[d]))
    && (HasTask(bp) ==> forall d :: d in p.daysState && d > p.currentDayId ==>
          p.daysState[d].completed == AllDone(bp, p.daysState[d].sections))
  }

  /** The state built on first run: one unchecked, incomplete record per day
      id 1..horizon, the pointer on day 1 and no streak. */
  ghost predicate IsFresh(bp: seq<Section>, horizon: int, p: Progress)
  {
    && (forall d :: d in p.daysState <==> 1 <= d <= horizon)
    && (forall d :: d in p.daysState ==> FreshSectionsOf(bp, p.daysState[d].sections) && !p.daysState[d].completed)
    && p.currentDayId == 1
    && p.streak == 0
  }

  lemma FreshIsConsistent(bp: seq<Section>, horizon: int, p: Progress)
    requires horizon >= 1 && IsFresh(bp, horizon, p)
    ensures Consistent(bp, horizon, p)
  {
    forall d | d in p.daysState ensures DayConsistent(bp, p.daysState[d]) {
      FreshSectionsShaped(bp, p.daysState[d].sections);
    }
  }

  /** The arguments of a toggle name an existing day, one of its section
      lists and an index inside that list; otherwise the application throws
      (or, for an out-of-range index, writes outside the list). */
  predicate CanToggle(p: Progress, dayId: int, sectionId: string, taskIndex: int)
  {
    && dayId in p.daysState
    && sectionId in p.daysState[dayId].sections
    && 0 <= taskIndex < |p.daysState[dayId].sections[sectionId]|
  }

  /** Negates one task boolean and nothing else. */
  function FlipTask(sections: map<string, seq<bool>>, sectionId: string, taskIndex: int): (r: map<string, seq<bool>>)
    requires sectionId in sections && 0 <= taskIndex < |sections[sectionId]|
    ensures r.Keys == sections.Keys
    ensures forall k :: k in sections && k != sectionId ==> r[k] == sections[k]
    ensures |r[sectionId]| == |sections[sectionId]|
    ensures r[sectionId][taskIndex] == !sections[sectionId][taskIndex]
    ensures forall j :: 0 <= j < |r[sectionId]| && j != taskIndex ==> r[sectionId][j] == sections[sectionId][j]
  {
    sections[sectionId := sections[sectionId][taskIndex := !sections[sectionId][taskIndex]]]
  }

  /** toggleTask(dayId, sectionId, taskIndex) as a transition. Only the
      advance branch checks that the toggled day is the current one; the
      decrement branch fires for any day that goes from complete to
      incomplete. */
  function Toggled(bp: seq<Section>, horizon: int, p: Progress, dayId: int, sectionId: string, taskIndex: int): (q: Progress)
    requires CanToggle(p, dayId, sectionId, taskIndex)
    // exactly one boolean of one day changes
    ensures q.daysState.Keys == p.daysState.Keys
    ensures forall d :: d in p.daysState && d != dayId ==> q.daysState[d] == p.daysState[d]
    ensures q.daysState[dayId].sections == FlipTask(p.daysState[dayId].sections, sectionId, taskIndex)
    // the completion flag of the toggled day is recomputed
    ensures q.daysState[dayId].completed == AllDone(bp, q.daysState[dayId].sections)
    // streak and pointer
    ensures var was, now := p.daysState[dayId].completed, q.daysState[dayId].completed;
      && (!was && now && dayId == p.currentDayId ==>
            q.streak == p.streak + 1 && q.currentDayId == Min(p.currentDayId + 1, horizon))
      && (was && !now ==> q.streak == Max(0, p.streak - 1) && q.currentDayId == p.currentDayId)
      && (was == now || (!was && dayId != p.currentDayId) ==>
            q.streak == p.streak && q.currentDayId == p.currentDayId)
  {
    var day := p.daysState[dayId];
    var sections := FlipTask(day.sections, sectionId, taskIndex);
    var allDone := AllDone(bp, sections);
    var wasCompleted := day.completed;
    var daysState := p.daysState[dayId := DayState(sections, allDone)];
    if !wasCompleted && allDone && dayId == p.currentDayId then
      Progress(daysState, Min(p.currentDayId + 1, horizon), p.streak + 1)
    else if wasCompleted && !allDone then
      Progress(daysState, p.currentDayId, Max(0, p.streak - 1))
    else
      Progress(daysState, p.currentDayId, p.streak)
  }

  /** markMissedAndAdvance() as a transition. */
  function Skipped(horizon: int, p: Progress): (q: Progress)
    requires p.currentDayId in p.daysState
    ensures q.daysState.Keys == p.daysState.Keys
    ensures forall d :: d in p.daysState && d != p.currentDayId ==> q.daysState[d] == p.daysState[d]
    ensures q.daysState[p.currentDayId].sections == p.daysState[p.currentDayId].sections
    ensures !q.daysState[p.currentDayId].completed
    ensures q.streak == p.streak
    ensures p.currentDayId < horizon ==> q.currentDayId == p.currentDayId + 1
    ensures p.currentDayId >= horizon ==> q.currentDayId == horizon
  {
    var c := p.currentDayId;
    Progress(p.daysState[c := p.daysState[c].(completed := false)], Min(c + 1, horizon), p.streak)
  }

  lemma ToggledConsistent(bp: seq<Section>, horizon: int, p: Progress, dayId: int, sectionId: string, taskIndex: int)
    requires Consistent(bp, horizon, p) && CanToggle(p, dayId, sectionId, taskIndex)
    ensures Consistent(bp, horizon, Toggled(bp, horizon, p, dayId, sectionId, taskIndex))
    ensures Toggled(bp, horizon, p, dayId, sectionId, taskIndex).currentDayId >= p.currentDayId
  {
    var q := Toggled(bp, horizon, p, dayId, sectionId, taskIndex);
    assert Shaped(bp, q.daysState[dayId].sections) by {
      assert Shaped(bp, p.daysState[dayId].sections);
    }
  }

  lemma SkippedConsistent(bp: seq<Section>, horizon: int, p: Progress)
    requires Consistent(bp, horizon, p)
    ensures p.currentDayId in p.daysState
    ensures Consistent(bp, horizon, Skipped(horizon, p))
    ensures Skipped(horizon, p).currentDayId >= p.currentDayId
  {
    var q := Skipped(horizon, p);
    assert DayConsistent(bp, q.daysState[p.currentDayId]) by {
      assert DayConsistent(bp, p.daysState[p.currentDayId]);
    }
  }

  /** Once the pointer is on the last day, mark-missed no longer moves it and
      a second call changes nothing. */
  lemma SkipAtHorizonIdempotent(horizon: int, p: Progress)
    requires p.currentDayId in p.daysState && p.currentDayId == horizon
    ensures Skipped(horizon, p).currentDayId == p.currentDayId
    ensures Skipped(horizon, Skipped(horizon, p)) == Skipped(horizon, p)
  {
  }

  /** Negating the same boolean twice gives back the original sections. */
  lemma FlipTaskTwice(sections: map<string, seq<bool>>, sectionId: string, taskIndex: int)
    requires sectionId in sections && 0 <= taskIndex < |sections[sectionId]|
    ensures FlipTask(FlipTask(sections, sectionId, taskIndex), sectionId, taskIndex) == sections
  {
    var a := sections[sectionId];
    assert a[taskIndex := !a[taskIndex]][taskIndex := a[taskIndex]] == a;
  }

  /** Toggling the same task twice restores the day's booleans and leaves its
      flag equal to the completion predicate; other days are untouched. */
  lemma ToggleTwice(bp: seq<Section>, horizon: int, p: Progress, dayId: int, sectionId: string, taskIndex: int)
    requires CanToggle(p, dayId, sectionId, taskIndex)
    ensures CanToggle(Toggled(bp, horizon, p, dayId, sectionId, taskIndex), dayId, sectionId, taskIndex)
    ensures var q2 := Toggled(bp, horizon, Toggled(bp, horizon, p, dayId, sectionId, taskIndex), dayId, sectionId, taskIndex);
      var day := p.daysState[dayId];
      q2.daysState == p.daysState[dayId := day.(completed := AllDone(bp, day.sections))]
  {
    var q1 := Toggled(bp, horizon, p, dayId, sectionId, taskIndex);
    var q2 := Toggled(bp, horizon, q1, dayId, sectionId, taskIndex);
    var day := p.daysState[dayId];
    FlipTaskTwice(day.sections, sectionId, taskIndex);
    var restored := p.daysState[dayId := day.(completed := AllDone(bp, day.sections))];
    assert q2.daysState[dayId] == restored[dayId];
    assert q2.daysState == restored;
  }

  /** When neither of two toggles of the same task changes the day's
      completion, the pair changes nothing at all: booleans, flags, streak and
      pointer all come back. */
  lemma ToggleTwiceUnchanged(bp: seq<Section>, horizon: int, p: Progress, dayId: int, sectionId: string, taskIndex: int)
    requires CanToggle(p, dayId, sectionId, taskIndex)
    requires var day := p.daysState[dayId];
      && day.completed == AllDone(bp, day.sections)
      && day.completed == Toggled(bp, horizon, p, dayId, sectionId, taskIndex).daysState[dayId].completed
    ensures CanToggle(Toggled(bp, horizon, p, dayId, sectionId, taskIndex), dayId, sectionId, taskIndex)
    ensures Toggled(bp, horizon, Toggled(bp, horizon, p, dayId, sectionId, taskIndex), dayId, sectionId, taskIndex) == p
  {
    ToggleTwice(bp, horizon, p, dayId, sectionId, taskIndex);
    var q1 := Toggled(bp, horizon, p, dayId, sectionId, taskIndex);
    var q2 := Toggled(bp, horizon, q1, dayId, sectionId, taskIndex);
    var day := p.daysState[dayId];
    assert q1.streak == p.streak && q1.currentDayId == p.currentDayId;
    assert q2.streak == q1.streak && q2.currentDayId == q1.currentDayId;
    assert day.(completed := AllDone(bp, day.sections)) == day;
    assert q2.daysState == p.daysState;
  }

  /** In a consistent state a toggle is defined for every generated day and
      every blueprint section and task (the rendering layer passes the
      current day), and so is mark-missed. */
  lemma CallsDefined(bp: seq<Section>, horizon: int, p: Progress, dayId: int, k: int, taskIndex: int)
    requires Consistent(bp, horizon, p)
    requires 1 <= dayId <= horizon && 0 <= k < |bp| && 0 <= taskIndex < bp[k].taskCount
    ensures CanToggle(p, dayId, bp[k].id, taskIndex)
    ensures p.currentDayId in p.daysState
  {
    assert DayConsistent(bp, p.daysState[dayId]);
  }

  /** One call of the rendering layer. */
  datatype Op = Toggle(dayId: int, sectionId: string, taskIndex: int) | MarkMissed

  /** The effect of one call; None where the application would throw. */
  function Apply(bp: seq<Section>, horizon: int, p: Progress, op: Op): (r: Option<Progress>)
  {
    match op
    case Toggle(d, s, i) =>
      if CanToggle(p, d, s, i) then Some(Toggled(bp, horizon, p, d, s, i)) else None
    case MarkMissed =>
      if p.currentDayId in p.daysState then Some(Skipped(horizon, p)) else None
  }

  /** The effect of a sequence of calls, stopping at the first that throws. */
  function Run(bp: seq<Section>, horizon: int, p: Progress, ops: seq<Op>): (r: Option<Progress>)
    decreases |ops|
  {
    if ops == [] then Some(p)
    else match Apply(bp, horizon, p, ops[0])
      case None => None
      case Some(q) => Run(bp, horizon, q, ops[1..])
  }

  /** Every sequence of calls keeps the invariant and never moves the
      pointer back. */
  lemma {:induction false} RunConsistent(bp: seq<Section>, horizon: int, p: Progress, ops: seq<Op>)
    requires Consistent(bp, horizon, p)
    ensures Run(bp, horizon, p, ops).Some? ==>
      Consistent(bp, horizon, Run(bp, horizon, p, ops).value)
      && Run(bp, horizon, p, ops).value.currentDayId >= p.currentDayId
    decreases |ops|
  {
    if ops != [] {
      match ops[0]
      case Toggle(d, s, i) =>
        if CanToggle(p, d, s, i) {
          ToggledConsistent(bp, horizon, p, d, s, i);
          RunConsistent(bp, horizon, Toggled(bp, horizon, p, d, s, i), ops[1..]);
        }
      case MarkMissed =>
        SkippedConsistent(bp, horizon, p);
        RunConsistent(bp, horizon, Skipped(horizon, p), ops[1..]);
    }
  }

  /** From the fresh state, after any sequence of calls: the streak is not
      negative, the pointer stays within 1..horizon, no day is marked
      complete with an unchecked task, and every day ahead of the pointer is
      marked complete exactly when all its tasks are checked. */
  lemma RunFromFresh(bp: seq<Section>, horizon: int, p: Progress, ops: seq<Op>)
    requires horizon >= 1 && IsFresh(bp, horizon, p)
    ensures Run(bp, horizon, p, ops).Some? ==>
      var q := Run(bp, horizon, p, ops).value;
      && q.streak >= 0
      && 1 <= q.currentDayId <= horizon
      && (forall d :: d in q.daysState && q.daysState[d].completed ==> AllDone(bp, q.daysState[d].sections))
      && (HasTask(bp) ==> forall d :: d in q.daysState && d > q.currentDayId ==>
            q.daysState[d].completed == AllDone(bp, q.daysState[d].sections))
  {
    FreshIsConsistent(bp, horizon, p);
    RunConsistent(bp, horizon, p, ops);
    if Run(bp, horizon, p, ops).Some? {
      var q := Run(bp, horizon, p, ops).value;
      forall d | d in q.daysState && q.daysState[d].completed
        ensures AllDone(bp, q.daysState[d].sections)
      {
        assert DayConsistent(bp, q.daysState[d]);
      }
    }
  }
}
